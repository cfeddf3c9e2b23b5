/**
 * lib/slack/message_util.go: the newest generation's message builder. The
 * build result, a package global read from BITRISE_BUILD_STATUS, is the
 * parameter `success`; the wall clock read by time.Now is the parameter
 * `now` (seconds since the epoch).
 */
module SlackMessageUtil {
  import opened GoStrings
  import opened Escapes
  import opened PairsFormat
  import opened StepConfig
  import opened Json
  import opened MessageGo
  import UtilSelect

  /**
   * selectValue: the success value after a successful build; after a failed
   * one the failure value, unless that is empty.
   */
  function SelectValue(success: bool, ifSuccess: string, ifFailed: string): (r: string)
    ensures r == ifSuccess || r == ifFailed
    ensures success ==> r == ifSuccess
    ensures !success && ifFailed != "" ==> r == ifFailed
    ensures !success ==> (r == "" <==> ifSuccess == "" && ifFailed == "")
  {
    if success || ifFailed == "" then ifSuccess else ifFailed
  }

  /** selectBool: the success value exactly when the build succeeded, with no emptiness test. */
  function SelectBool(success: bool, ifSuccess: bool, ifFailed: bool): (r: bool)
    ensures success ==> r == ifSuccess
    ensures !success ==> r == ifFailed
  {
    if success then ifSuccess else ifFailed
  }

  /**
   * selectValue and the generic selector seeded with the build result
   * agree on a pair of values exactly when an empty failure value comes
   * with an empty success value: the selector returns "" where selectValue
   * falls back to the success value, whatever the build result.
   */
  lemma SelectorAgreesWithSelectValue(success: bool, ifSuccess: string, ifFailed: string)
    ensures UtilSelect.GetString(UtilSelect.SeedSelectString(success)(ifSuccess, ifFailed))
              == SelectValue(success, ifSuccess, ifFailed)
            <==> (ifFailed == "" ==> ifSuccess == "")
  {
    UtilSelect.SeedSelectGet(success, ifSuccess, ifFailed, false, false);
  }

  // ---------------------------------------------------------------------
  // The pairs-list parsers of lib/slack

  /** pairs (message_util.go:49-58), the same loop as message.go's. */
  method Pairs(s: string) returns (ps: seq<Pair>)
    ensures ps == PairsOf(s)
  {
    var lines := Split(s, '\n');
    ps := [];
    for i := 0 to |lines|
      invariant ps == PairsOfLines(lines[..i])
    {
      var a := SplitN2(lines[i], '|');
      if |a| == 2 && a[0] != "" && a[1] != "" {
        ps := ps + [Pair(a[0], a[1])];
      }
      assert lines[..i + 1][..i] == lines[..i];
    }
    assert lines[..|lines|] == lines;
  }

  /**
   * The fields this parseFields builds: one per entry of the pairs list,
   * in order, name and value copied verbatim (escaped newlines are kept).
   */
  function PlainFieldsOf(s: string): (fs: seq<Field>)
    ensures var ps := PairsOf(s);
      && |fs| == |ps|
      && forall k :: 0 <= k < |fs| ==> fs[k] == Field(ps[k].name, ps[k].value, false)
  {
    var ps := PairsOf(s);
    seq(|ps|, k requires 0 <= k < |ps| => Field(ps[k].name, ps[k].value, false))
  }

  /** parseFields (message_util.go:33-38): appends one Field per pair. */
  method ParseFields(s: string) returns (fs: seq<Field>)
    ensures fs == PlainFieldsOf(s)
  {
    var ps := Pairs(s);
    fs := [];
    for i := 0 to |ps|
      invariant |fs| == i
      invariant forall k :: 0 <= k < i ==> fs[k] == Field(ps[k].name, ps[k].value, false)
    {
      fs := fs + [Field(ps[i].name, ps[i].value, false)];
    }
  }

  /**
   * parseButtons (message_util.go:40-45): appends one Button per pair, the
   * same buttons as message.go's parseButtons.
   */
  method ParseButtons(s: string) returns (bs: seq<Button>)
    ensures bs == ButtonsOf(s)
  {
    var ps := Pairs(s);
    bs := [];
    for i := 0 to |ps|
      invariant |bs| == i
      invariant forall k :: 0 <= k < i ==> bs[k] == Button("", ps[k].name, ps[k].value, "")
    {
      bs := bs + [Button("", ps[i].name, ps[i].value, "")];
    }
  }

  /**
   * message.go's parseFields differs from this one only in the field
   * values, which it passes through the newline expansion.
   */
  lemma FieldsDiverge(s: string)
    ensures |FieldsOf(s)| == |PlainFieldsOf(s)|
    ensures forall k :: 0 <= k < |FieldsOf(s)| ==>
      FieldsOf(s)[k] == PlainFieldsOf(s)[k].(value := EnsureNewlines(PlainFieldsOf(s)[k].value))
  {
  }

  /** A one-line list with a well-formed entry gives that one Field, verbatim. */
  lemma OnePlainField(name: string, value: string)
    requires WellFormed(Pair(name, value)) && '\n' !in name && '\n' !in value
    ensures PlainFieldsOf(name + "|" + value) == [Field(name, value, false)]
  {
    OneEntry(name, value);
  }

  /**
   * Here "Release notes|line1\\nline2" keeps its escape: the one Field's
   * value is "line1\\nline2", backslash and all.
   */
  lemma ReleaseNotesKeptVerbatim()
    ensures PlainFieldsOf("Release notes|line1\\nline2") == [Field("Release notes", "line1\\nline2", false)]
  {
    var name, value := "Release notes", "line1\\nline2";
    assert '|' !in name && '\n' !in name && '\n' !in value;
    assert name + "|" + value == "Release notes|line1\\nline2";
    OnePlainField(name, value);
  }

  // ---------------------------------------------------------------------
  // NewMessage

  /** The attachment NewMessage builds, before the timestamp is set. */
  function AttachmentFor(c: Config, success: bool): Attachment {
    var body := EnsureNewlines(SelectValue(success, c.message, c.messageOnError));
    Attachment(
      body,
      SelectValue(success, c.color, c.colorOnError),
      SelectValue(success, c.preText, c.preTextOnError),
      c.authorName,
      SelectValue(success, c.title, c.titleOnError),
      c.titleLink,
      body,
      PlainFieldsOf(c.fields),
      SelectValue(success, c.imageURL, c.imageURLOnError),
      SelectValue(success, c.thumbURL, c.thumbURLOnError),
      c.footer,
      c.footerIcon,
      0,
      ButtonsOf(c.buttons))
  }

  /**
   * The message NewMessage builds from a config, the build result and the
   * clock: exactly one attachment, whose fallback and text are both the
   * selected message with its escaped newlines expanded; the channel is the
   * selected channel trimmed; the attachment carries the clock exactly when
   * the config asks for a timestamp.
   */
  function MessageFor(c: Config, success: bool, now: int): (m: Message)
    ensures |m.attachments| == 1
    ensures m.attachments[0].fallback == m.attachments[0].text
              == EnsureNewlines(SelectValue(success, c.message, c.messageOnError))
    ensures NoEscapedNewline(m.attachments[0].text)
    ensures m.channel == TrimSpace(SelectValue(success, c.channel, c.channelOnError))
    ensures m.attachments[0].timeStamp == (if c.timeStamp then now else 0)
    ensures m.attachments[0].fields == PlainFieldsOf(c.fields)
    ensures m.attachments[0].buttons == ButtonsOf(c.buttons)
    ensures m.ts == ""
  {
    var a := AttachmentFor(c, success);
    Message(
      TrimSpace(SelectValue(success, c.channel, c.channelOnError)),
      SelectValue(success, c.text, c.textOnError),
      [if c.timeStamp then a.(timeStamp := now) else a],
      SelectValue(success, c.iconEmoji, c.iconEmojiOnError),
      SelectValue(success, c.iconURL, c.iconURLOnError),
      c.linkNames,
      SelectValue(success, c.username, c.usernameOnError),
      SelectValue(success, c.threadTs, c.threadTsOnError),
      "",
      SelectBool(success, c.replyBroadcast, c.replyBroadcastOnError))
  }

  /**
   * NewMessage (message_util.go:60-90): builds the message, then sets the
   * attachment's timestamp in place when the config asks for one.
   */
  method NewMessage(c: Config, success: bool, now: int) returns (msg: Message)
    ensures msg == MessageFor(c, success, now)
  {
    var fields := ParseFields(c.fields);
    var buttons := ParseButtons(c.buttons);
    var body := EnsureNewlines(SelectValue(success, c.message, c.messageOnError));
    msg := Message(
      TrimSpace(SelectValue(success, c.channel, c.channelOnError)),
      SelectValue(success, c.text, c.textOnError),
      [Attachment(
        body,
        SelectValue(success, c.color, c.colorOnError),
        SelectValue(success, c.preText, c.preTextOnError),
        c.authorName,
        SelectValue(success, c.title, c.titleOnError),
        c.titleLink,
        body,
        fields,
        SelectValue(success, c.imageURL, c.imageURLOnError),
        SelectValue(success, c.thumbURL, c.thumbURLOnError),
        c.footer,
        c.footerIcon,
        0,
        buttons)],
      SelectValue(success, c.iconEmoji, c.iconEmojiOnError),
      SelectValue(success, c.iconURL, c.iconURLOnError),
      c.linkNames,
      SelectValue(success, c.username, c.usernameOnError),
      SelectValue(success, c.threadTs, c.threadTsOnError),
      "",
      SelectBool(success, c.replyBroadcast, c.replyBroadcastOnError));
    if c.timeStamp {
      msg := msg.(attachments := [msg.attachments[0].(timeStamp := now)]);
    }
  }

  /**
   * After a successful build every selected member takes its success
   * value, whatever the failure values are.
   */
  lemma SuccessTakesPrimary(c: Config, now: int)
    ensures var m := MessageFor(c, true, now); var a := m.attachments[0];
      && m.channel == TrimSpace(c.channel) && m.text == c.text
      && m.iconEmoji == c.iconEmoji && m.iconURL == c.iconURL
      && m.username == c.username && m.threadTs == c.threadTs
      && m.replyBroadcast == c.replyBroadcast
      && a.fallback == EnsureNewlines(c.message) && a.color == c.color
      && a.preText == c.preText && a.title == c.title
      && a.imageURL == c.imageURL && a.thumbURL == c.thumbURL
  {
  }

  /**
   * After a failed build every selected string member takes its failure
   * value when that is set, and the reply-broadcast flag always does.
   */
  lemma FailureTakesOnError(c: Config, now: int)
    ensures var m := MessageFor(c, false, now); var a := m.attachments[0];
      && (c.channelOnError != "" ==> m.channel == TrimSpace(c.channelOnError))
      && (c.textOnError != "" ==> m.text == c.textOnError)
      && (c.iconEmojiOnError != "" ==> m.iconEmoji == c.iconEmojiOnError)
      && (c.iconURLOnError != "" ==> m.iconURL == c.iconURLOnError)
      && (c.usernameOnError != "" ==> m.username == c.usernameOnError)
      && (c.threadTsOnError != "" ==> m.threadTs == c.threadTsOnError)
      && m.replyBroadcast == c.replyBroadcastOnError
      && (c.messageOnError != "" ==> a.text == EnsureNewlines(c.messageOnError))
      && (c.colorOnError != "" ==> a.color == c.colorOnError)
      && (c.titleOnError != "" ==> a.title == c.titleOnError)
      && (c.preTextOnError != "" ==> a.preText == c.preTextOnError)
      && (c.imageURLOnError != "" ==> a.imageURL == c.imageURLOnError)
      && (c.thumbURLOnError != "" ==> a.thumbURL == c.thumbURLOnError)
  {
  }

  /**
   * The members with no failure variant are copied from the config and do
   * not depend on the build result.
   */
  lemma UnselectedCopied(c: Config, success: bool, now: int)
    ensures var m := MessageFor(c, success, now); var a := m.attachments[0];
      && a.authorName == c.authorName && a.titleLink == c.titleLink
      && a.footer == c.footer && a.footerIcon == c.footerIcon
      && m.linkNames == c.linkNames
      && m.linkNames == MessageFor(c, !success, now).linkNames
      && a.footer == MessageFor(c, !success, now).attachments[0].footer
  {
  }

  /**
   * Encoded, the built message always carries channel and attachments, and
   * its one attachment always carries fallback and color; the attachment's
   * ts member is present exactly when a timestamp was asked for and the
   * clock is not zero.
   */
  lemma MessageForEncoding(c: Config, success: bool, now: int)
    ensures var m := MessageFor(c, success, now);
      && Channel in MessageJson(m) && Attachments in MessageJson(m)
      && Fallback in AttachmentJson(m.attachments[0])
      && Color in AttachmentJson(m.attachments[0])
      && (Ts in AttachmentJson(m.attachments[0]) <==> c.timeStamp && now != 0)
  {
    var m := MessageFor(c, success, now);
    MessageMembers(m);
    AttachmentMembers(m.attachments[0]);
  }

  /**
   * The createMessage test case after a successful build: a config whose
   * channel is "channel", fields "title|value" and buttons "text|url" gives
   * that channel, the one field ("title", "value") and the one button
   * ("text", "url").
   */
  lemma TestConfigOnSuccess(c: Config, now: int)
    requires c.channel == "channel" && c.fields == "title|value" && c.buttons == "text|url"
    ensures var m := MessageFor(c, true, now);
      && m.channel == "channel"
      && m.attachments[0].fields == [Field("title", "value", false)]
      && m.attachments[0].buttons == [Button("", "text", "url", "")]
  {
    var m := MessageFor(c, true, now);
    assert m.channel == "channel" by {
      assert !IsSpace('c') && !IsSpace('l');
      TrimSpaceKeeps("channel");
    }
    assert m.attachments[0].fields == [Field("title", "value", false)] by { TestConfigLists(); }
    assert m.attachments[0].buttons == [Button("", "text", "url", "")] by { TestConfigLists(); }
  }

  /** The lists of the test configuration read as one field and one button. */
  lemma TestConfigLists()
    ensures PlainFieldsOf("title|value") == [Field("title", "value", false)]
    ensures ButtonsOf("text|url") == [Button("", "text", "url", "")]
  {
    assert '|' !in "title" && '\n' !in "title" && '\n' !in "value";
    assert '|' !in "text" && '\n' !in "text" && '\n' !in "url";
    assert "title" + "|" + "value" == "title|value";
    assert "text" + "|" + "url" == "text|url";
    OneEntry("title", "value");
    OneEntry("text", "url");
  }
}
