/**
 * message.go: the Slack message types, their JSON encoding (which members
 * are always present, which are omitted when empty, and the custom
 * encoders of Field and Button) and the pairs-list parsers of this
 * generation, whose parseFields expands escaped newlines in field values.
 *
 * lib/slack declares the same Message, Attachment, Field and Button types
 * (that file is not part of this model); the other modules reuse these.
 */
module MessageGo {
  import opened Wrappers
  import opened GoStrings
  import opened Escapes
  import opened PairsFormat
  import opened Json

  /** A message to post (message.go:14-41). */
  datatype Message = Message(
    channel: string,
    text: string,
    attachments: seq<Attachment>,
    iconEmoji: string,
    iconURL: string,
    linkNames: bool,
    username: string,
    threadTs: string,
    ts: string,
    replyBroadcast: bool
  )

  /** One attachment of a message (message.go:45-110). */
  datatype Attachment = Attachment(
    fallback: string,
    color: string,
    preText: string,
    authorName: string,
    title: string,
    titleLink: string,
    text: string,
    fields: seq<Field>,
    imageURL: string,
    thumbURL: string,
    footer: string,
    footerIcon: string,
    timeStamp: int,
    buttons: seq<Button>
  )

  /** A table cell of an attachment (message.go:113-124). */
  datatype Field = Field(title: string, value: string, short: bool)

  /** A link button; `kind` is Go's Type field (message.go:142-155). */
  datatype Button = Button(kind: string, text: string, url: string, style: string)

  /** A field value shorter than this many bytes is encoded as short. */
  const ShortLimit: nat := 40

  // ---------------------------------------------------------------------
  // JSON encoding

  /** The member names a Message can be encoded with. */
  const MessageKeys: set<Key> := {Channel, Text, Attachments, IconEmoji, IconUrl,
    LinkNames, Username, ThreadTs, Ts, ReplyBroadcast}

  /** The member names an Attachment can be encoded with. */
  const AttachmentKeys: set<Key> := {Fallback, Color, Pretext, AuthorName, Title,
    TitleLink, Text, Fields, ImageUrl, ThumbUrl, Footer, FooterIcon, Ts, Actions}

  /** A string member tagged omitempty: absent when "". */
  function OmitEmpty(s: string): Option<Json> {
    if s == "" then None else Some(JString(s))
  }

  /** A bool member tagged omitempty: absent when false. */
  function OmitFalse(b: bool): Option<Json> {
    if b then Some(JBool(true)) else None
  }

  /** An array member tagged omitempty: absent when empty. */
  function OmitNone(items: seq<Json>): Option<Json> {
    if items == [] then None else Some(JArray(items))
  }

  /**
   * Field.MarshalJSON: exactly the members title, value and short, where
   * short says whether the value is under ShortLimit bytes; the Short field
   * itself is not encoded.
   */
  function FieldJson(f: Field): (j: map<Key, Json>)
    ensures j.Keys == {Title, Value, Short}
    ensures j[Short] == JBool(ByteLen(f.value) < ShortLimit)
  {
    map[Title := JString(f.title), Value := JString(f.value), Short := JBool(ByteLen(f.value) < ShortLimit)]
  }

  /**
   * Button.MarshalJSON: the constant type "button" and style "default",
   * whatever the Button's own Type and Style hold, with text and url copied.
   */
  function ButtonJson(b: Button): (j: map<Key, Json>)
    ensures j.Keys == {Type, Text, Url, Style}
    ensures j[Type] == JString("button") && j[Style] == JString("default")
  {
    map[Type := JString("button"), Text := JString(b.text), Url := JString(b.url), Style := JString("default")]
  }

  function FieldsJson(fs: seq<Field>): (r: seq<Json>)
    ensures |r| == |fs|
  {
    seq(|fs|, i requires 0 <= i < |fs| => JObject(FieldJson(fs[i])))
  }

  function ButtonsJson(bs: seq<Button>): (r: seq<Json>)
    ensures |r| == |bs|
  {
    seq(|bs|, i requires 0 <= i < |bs| => JObject(ButtonJson(bs[i])))
  }

  /**
   * The encoding of each member of an Attachment, by its struct tag
   * (message.go:51-109): fallback and color always, the rest omitempty.
   */
  function AttachmentMember(a: Attachment, k: Key): Option<Json> {
    match k
    case Fallback => Some(JString(a.fallback))
    case Color => Some(JString(a.color))
    case Pretext => OmitEmpty(a.preText)
    case AuthorName => OmitEmpty(a.authorName)
    case Title => OmitEmpty(a.title)
    case TitleLink => OmitEmpty(a.titleLink)
    case Text => OmitEmpty(a.text)
    case Fields => OmitNone(FieldsJson(a.fields))
    case ImageUrl => OmitEmpty(a.imageURL)
    case ThumbUrl => OmitEmpty(a.thumbURL)
    case Footer => OmitEmpty(a.footer)
    case FooterIcon => OmitEmpty(a.footerIcon)
    case Ts => if a.timeStamp == 0 then None else Some(JInt(a.timeStamp))
    case Actions => OmitNone(ButtonsJson(a.buttons))
    case _ => None
  }

  function AttachmentJson(a: Attachment): map<Key, Json> {
    map k | k in AttachmentKeys && AttachmentMember(a, k).Some? :: AttachmentMember(a, k).value
  }

  function AttachmentsJson(atts: seq<Attachment>): (r: seq<Json>)
    ensures |r| == |atts|
  {
    seq(|atts|, i requires 0 <= i < |atts| => JObject(AttachmentJson(atts[i])))
  }

  /**
   * The encoding of each member of a Message, by its struct tag
   * (message.go:14-41): channel always, the rest omitempty.
   */
  function MessageMember(m: Message, k: Key): Option<Json> {
    match k
    case Channel => Some(JString(m.channel))
    case Text => OmitEmpty(m.text)
    case Attachments => OmitNone(AttachmentsJson(m.attachments))
    case IconEmoji => OmitEmpty(m.iconEmoji)
    case IconUrl => OmitEmpty(m.iconURL)
    case LinkNames => OmitFalse(m.linkNames)
    case Username => OmitEmpty(m.username)
    case ThreadTs => OmitEmpty(m.threadTs)
    case Ts => OmitEmpty(m.ts)
    case ReplyBroadcast => OmitFalse(m.replyBroadcast)
    case _ => None
  }

  function MessageJson(m: Message): map<Key, Json> {
    map k | k in MessageKeys && MessageMember(m, k).Some? :: MessageMember(m, k).value
  }

  /**
   * channel is always encoded; every other member of a Message is present
   * exactly when its value is not empty, not false and not an empty list.
   */
  lemma MessageMembers(m: Message)
    ensures var j := MessageJson(m);
      && j.Keys <= MessageKeys
      && Channel in j
      && (Text in j <==> m.text != "")
      && (Attachments in j <==> m.attachments != [])
      && (IconEmoji in j <==> m.iconEmoji != "")
      && (IconUrl in j <==> m.iconURL != "")
      && (LinkNames in j <==> m.linkNames)
      && (Username in j <==> m.username != "")
      && (ThreadTs in j <==> m.threadTs != "")
      && (Ts in j <==> m.ts != "")
      && (ReplyBroadcast in j <==> m.replyBroadcast)
  {
  }

  /**
   * fallback and color are always encoded; every other member of an
   * Attachment is present exactly when its value is not empty, not 0 and not
   * an empty list.
   */
  lemma AttachmentMembers(a: Attachment)
    ensures var j := AttachmentJson(a);
      && j.Keys <= AttachmentKeys
      && Fallback in j && Color in j
      && (Pretext in j <==> a.preText != "")
      && (AuthorName in j <==> a.authorName != "")
      && (Title in j <==> a.title != "")
      && (TitleLink in j <==> a.titleLink != "")
      && (Text in j <==> a.text != "")
      && (Fields in j <==> a.fields != [])
      && (ImageUrl in j <==> a.imageURL != "")
      && (ThumbUrl in j <==> a.thumbURL != "")
      && (Footer in j <==> a.footer != "")
      && (FooterIcon in j <==> a.footerIcon != "")
      && (Ts in j <==> a.timeStamp != 0)
      && (Actions in j <==> a.buttons != [])
  {
    AttachmentTextMembers(a);
    AttachmentListMembers(a);
  }

  lemma AttachmentTextMembers(a: Attachment)
    ensures var j := AttachmentJson(a);
      && j.Keys <= AttachmentKeys
      && Fallback in j && Color in j
      && (Pretext in j <==> a.preText != "")
      && (AuthorName in j <==> a.authorName != "")
      && (Title in j <==> a.title != "")
      && (TitleLink in j <==> a.titleLink != "")
      && (Text in j <==> a.text != "")
  {
  }

  lemma AttachmentListMembers(a: Attachment)
    ensures var j := AttachmentJson(a);
      && (Fields in j <==> a.fields != [])
      && (ImageUrl in j <==> a.imageURL != "")
      && (ThumbUrl in j <==> a.thumbURL != "")
      && (Footer in j <==> a.footer != "")
      && (FooterIcon in j <==> a.footerIcon != "")
      && (Ts in j <==> a.timeStamp != 0)
      && (Actions in j <==> a.buttons != [])
  {
    assert FieldsJson(a.fields) == [] <==> a.fields == [];
    assert ButtonsJson(a.buttons) == [] <==> a.buttons == [];
  }

  /** The attachment timestamp is the integer member ts; the buttons are the array member actions. */
  lemma AttachmentTsAndActions(a: Attachment)
    ensures a.timeStamp != 0 ==> AttachmentJson(a)[Ts] == JInt(a.timeStamp)
    ensures a.buttons != [] ==> AttachmentJson(a)[Actions] == JArray(ButtonsJson(a.buttons))
  {
  }

  // ---------------------------------------------------------------------
  // Reading an encoding back

  function FieldFromJson(v: Json): Field {
    var m := MembersOf(v);
    Field(StringAt(m, Title), StringAt(m, Value), BoolAt(m, Short))
  }

  function ButtonFromJson(v: Json): Button {
    var m := MembersOf(v);
    Button(StringAt(m, Type), StringAt(m, Text), StringAt(m, Url), StringAt(m, Style))
  }

  function AttachmentFromJson(v: Json): Attachment {
    var m := MembersOf(v);
    var fs := ArrayAt(m, Fields);
    var bs := ArrayAt(m, Actions);
    Attachment(StringAt(m, Fallback), StringAt(m, Color), StringAt(m, Pretext),
      StringAt(m, AuthorName), StringAt(m, Title), StringAt(m, TitleLink), StringAt(m, Text),
      seq(|fs|, i requires 0 <= i < |fs| => FieldFromJson(fs[i])),
      StringAt(m, ImageUrl), StringAt(m, ThumbUrl), StringAt(m, Footer), StringAt(m, FooterIcon),
      IntAt(m, Ts),
      seq(|bs|, i requires 0 <= i < |bs| => ButtonFromJson(bs[i])))
  }

  function MessageFromJson(m: map<Key, Json>): Message {
    var atts := ArrayAt(m, Attachments);
    Message(StringAt(m, Channel), StringAt(m, Text),
      seq(|atts|, i requires 0 <= i < |atts| => AttachmentFromJson(atts[i])),
      StringAt(m, IconEmoji), StringAt(m, IconUrl), BoolAt(m, LinkNames),
      StringAt(m, Username), StringAt(m, ThreadTs), StringAt(m, Ts), BoolAt(m, ReplyBroadcast))
  }

  /**
   * What the encoding keeps of a message: everything, except that a field's
   * Short becomes the computed short flag and a button's Type and Style
   * become the constants "button" and "default".
   */
  function Encoded(m: Message): Message {
    m.(attachments := seq(|m.attachments|, i requires 0 <= i < |m.attachments| => EncodedAttachment(m.attachments[i])))
  }

  function EncodedAttachment(a: Attachment): Attachment {
    a.(fields := seq(|a.fields|, k requires 0 <= k < |a.fields| => EncodedField(a.fields[k])),
       buttons := seq(|a.buttons|, k requires 0 <= k < |a.buttons| => EncodedButton(a.buttons[k])))
  }

  function EncodedField(f: Field): Field {
    f.(short := ByteLen(f.value) < ShortLimit)
  }

  function EncodedButton(b: Button): Button {
    b.(kind := "button", style := "default")
  }

  /** Reading an encoded Field gives it back, with short as computed. */
  lemma FieldRoundTrip(f: Field)
    ensures FieldFromJson(JObject(FieldJson(f))) == EncodedField(f)
  {
  }

  /** Reading an encoded Button gives it back, with the constant type and style. */
  lemma ButtonRoundTrip(b: Button)
    ensures ButtonFromJson(JObject(ButtonJson(b))) == EncodedButton(b)
  {
  }

  lemma AttachmentStrings(a: Attachment)
    ensures var j := AttachmentJson(a);
      && StringAt(j, Fallback) == a.fallback && StringAt(j, Color) == a.color
      && StringAt(j, Pretext) == a.preText && StringAt(j, AuthorName) == a.authorName
      && StringAt(j, Title) == a.title && StringAt(j, TitleLink) == a.titleLink
  {
  }

  lemma AttachmentMoreStrings(a: Attachment)
    ensures var j := AttachmentJson(a);
      && StringAt(j, Text) == a.text && StringAt(j, ImageUrl) == a.imageURL
      && StringAt(j, ThumbUrl) == a.thumbURL && StringAt(j, Footer) == a.footer
      && StringAt(j, FooterIcon) == a.footerIcon && IntAt(j, Ts) == a.timeStamp
  {
  }

  lemma AttachmentLists(a: Attachment)
    ensures var j := AttachmentJson(a);
      && ArrayAt(j, Fields) == FieldsJson(a.fields)
      && ArrayAt(j, Actions) == ButtonsJson(a.buttons)
  {
    var j := AttachmentJson(a);
    if a.fields == [] {
      assert FieldsJson(a.fields) == [];
    }
    if a.buttons == [] {
      assert ButtonsJson(a.buttons) == [];
    }
  }

  /** Reading an encoded Attachment gives it back, up to what the encoding keeps. */
  lemma AttachmentRoundTrip(a: Attachment)
    ensures AttachmentFromJson(JObject(AttachmentJson(a))) == EncodedAttachment(a)
  {
    AttachmentStrings(a);
    AttachmentMoreStrings(a);
    AttachmentLists(a);
    var r, e := AttachmentFromJson(JObject(AttachmentJson(a))), EncodedAttachment(a);
    var fs, bs := FieldsJson(a.fields), ButtonsJson(a.buttons);
    forall i | 0 <= i < |a.fields| ensures r.fields[i] == e.fields[i] {
      FieldRoundTrip(a.fields[i]);
    }
    forall i | 0 <= i < |a.buttons| ensures r.buttons[i] == e.buttons[i] {
      ButtonRoundTrip(a.buttons[i]);
    }
  }

  lemma MessageScalars(m: Message)
    ensures var j := MessageJson(m);
      && StringAt(j, Channel) == m.channel && StringAt(j, Text) == m.text
      && StringAt(j, IconEmoji) == m.iconEmoji && StringAt(j, IconUrl) == m.iconURL
      && BoolAt(j, LinkNames) == m.linkNames && StringAt(j, Username) == m.username
      && StringAt(j, ThreadTs) == m.threadTs && StringAt(j, Ts) == m.ts
      && BoolAt(j, ReplyBroadcast) == m.replyBroadcast
      && ArrayAt(j, Attachments) == AttachmentsJson(m.attachments)
  {
    if m.attachments == [] {
      assert AttachmentsJson(m.attachments) == [];
    }
  }

  /**
   * Reading an encoded Message gives it back, up to what the encoding keeps:
   * nothing but the Short flags of fields and the Type and Style of buttons
   * is lost.
   */
  lemma MessageRoundTrip(m: Message)
    ensures MessageFromJson(MessageJson(m)) == Encoded(m)
  {
    MessageScalars(m);
    var r, e := MessageFromJson(MessageJson(m)), Encoded(m);
    forall i | 0 <= i < |m.attachments| ensures r.attachments[i] == e.attachments[i] {
      AttachmentRoundTrip(m.attachments[i]);
    }
  }

  /** The encoding of an Attachment depends only on what EncodedAttachment keeps. */
  lemma AttachmentJsonCanonical(a: Attachment)
    ensures AttachmentJson(EncodedAttachment(a)) == AttachmentJson(a)
  {
    var e := EncodedAttachment(a);
    assert FieldsJson(e.fields) == FieldsJson(a.fields);
    assert ButtonsJson(e.buttons) == ButtonsJson(a.buttons);
    forall k ensures AttachmentMember(e, k) == AttachmentMember(a, k) {
    }
  }

  /** The encoding of a Message depends only on what Encoded keeps. */
  lemma MessageJsonCanonical(m: Message)
    ensures MessageJson(Encoded(m)) == MessageJson(m)
  {
    var e := Encoded(m);
    forall i | 0 <= i < |m.attachments| ensures AttachmentsJson(e.attachments)[i] == AttachmentsJson(m.attachments)[i] {
      AttachmentJsonCanonical(m.attachments[i]);
    }
    assert AttachmentsJson(e.attachments) == AttachmentsJson(m.attachments);
    forall k ensures MessageMember(e, k) == MessageMember(m, k) {
    }
  }

  /**
   * Two messages are encoded alike exactly when they agree on everything the
   * encoding keeps.
   */
  lemma MessageJsonInjective(m1: Message, m2: Message)
    ensures MessageJson(m1) == MessageJson(m2) <==> Encoded(m1) == Encoded(m2)
  {
    MessageRoundTrip(m1);
    MessageRoundTrip(m2);
    if Encoded(m1) == Encoded(m2) {
      MessageJsonCanonical(m1);
      MessageJsonCanonical(m2);
    }
  }

  /**
   * A Field's encoding is fixed by its title and value alone: its own Short
   * flag plays no part, and different titles or values encode differently.
   */
  lemma FieldJsonDetermined(f: Field, g: Field)
    ensures FieldJson(f) == FieldJson(g) <==> f.title == g.title && f.value == g.value
  {
    FieldRoundTrip(f);
    FieldRoundTrip(g);
  }

  /**
   * A Button's encoding is fixed by its text and url alone: its own Type and
   * Style play no part.
   */
  lemma ButtonJsonDetermined(b: Button, c: Button)
    ensures ButtonJson(b) == ButtonJson(c) <==> b.text == c.text && b.url == c.url
  {
    ButtonRoundTrip(b);
    ButtonRoundTrip(c);
  }

  // ---------------------------------------------------------------------
  // The pairs-list parsers of message.go

  /**
   * pairs (message.go:175-184): the loop over the lines of s, keeping the
   * lines SplitN reads as two non-empty parts.
   */
  method Pairs(s: string) returns (ps: seq<Pair>)
    ensures ps == PairsOf(s)
  {
    var lines := Split(s, '\n');
    ps := [];
    for i := 0 to |lines|
      invariant ps == PairsOfLines(lines[..i])
    {
      var a := SplitN2(lines[i], '|');
      if |a| == 2 && a[0] != "" && a[1] != "" {
        ps := ps + [Pair(a[0], a[1])];
      }
      assert lines[..i + 1][..i] == lines[..i];
    }
    assert lines[..|lines|] == lines;
  }

  /**
   * The fields parseFields builds: one per entry of the pairs list, in
   * order, the name as title and the value with its escaped newlines
   * expanded; Short is left false.
   */
  function FieldsOf(s: string): (fs: seq<Field>)
    ensures var ps := PairsOf(s);
      && |fs| == |ps|
      && forall k :: 0 <= k < |fs| ==> fs[k] == Field(ps[k].name, EnsureNewlines(ps[k].value), false)
  {
    var ps := PairsOf(s);
    seq(|ps|, k requires 0 <= k < |ps| => Field(ps[k].name, EnsureNewlines(ps[k].value), false))
  }

  /**
   * The buttons parseButtons builds: one per entry of the pairs list, in
   * order, the name as text and the value as url, both verbatim; Type and
   * Style are left empty.
   */
  function ButtonsOf(s: string): (bs: seq<Button>)
    ensures var ps := PairsOf(s);
      && |bs| == |ps|
      && forall k :: 0 <= k < |bs| ==> bs[k] == Button("", ps[k].name, ps[k].value, "")
  {
    var ps := PairsOf(s);
    seq(|ps|, k requires 0 <= k < |ps| => Button("", ps[k].name, ps[k].value, ""))
  }

  /** parseFields (message.go:134-139): appends one Field per pair. */
  method ParseFields(s: string) returns (fs: seq<Field>)
    ensures fs == FieldsOf(s)
  {
    var ps := Pairs(s);
    fs := [];
    for i := 0 to |ps|
      invariant |fs| == i
      invariant forall k :: 0 <= k < i ==> fs[k] == Field(ps[k].name, EnsureNewlines(ps[k].value), false)
    {
      fs := fs + [Field(ps[i].name, EnsureNewlines(ps[i].value), false)];
    }
  }

  /** parseButtons (message.go:166-171): appends one Button per pair. */
  method ParseButtons(s: string) returns (bs: seq<Button>)
    ensures bs == ButtonsOf(s)
  {
    var ps := Pairs(s);
    bs := [];
    for i := 0 to |ps|
      invariant |bs| == i
      invariant forall k :: 0 <= k < i ==> bs[k] == Button("", ps[k].name, ps[k].value, "")
    {
      bs := bs + [Button("", ps[i].name, ps[i].value, "")];
    }
  }

  /** No field value parseFields builds holds an escaped newline; titles are kept as written. */
  lemma FieldsExpanded(s: string)
    ensures forall k :: 0 <= k < |FieldsOf(s)| ==>
      NoEscapedNewline(FieldsOf(s)[k].value) && FieldsOf(s)[k].title == PairsOf(s)[k].name
  {
  }

  /** A one-line list with a well-formed entry gives that one Field. */
  lemma OneFieldLine(name: string, value: string)
    requires WellFormed(Pair(name, value)) && '\n' !in name && '\n' !in value
    ensures FieldsOf(name + "|" + value) == [Field(name, EnsureNewlines(value), false)]
  {
    OneEntry(name, value);
  }

  /**
   * A one-line list name|a\\nb, with no backslash in a and b, gives the
   * single Field (name, a newline b).
   */
  lemma EscapedFieldLine(name: string, a: string, b: string)
    requires name != [] && '|' !in name && '\n' !in name
    requires '\\' !in a && '\\' !in b && '\n' !in a && '\n' !in b
    ensures FieldsOf(name + "|" + (a + "\\n" + b)) == [Field(name, a + "\n" + b, false)]
  {
    var value := a + "\\n" + b;
    assert '\n' !in value by {
      forall i | 0 <= i < |value| ensures value[i] != '\n' {
        if i < |a| { assert value[i] == a[i]; }
        else if i >= |a| + 2 { assert value[i] == b[i - |a| - 2]; }
      }
    }
    assert value[|a|] == '\\';
    EnsureNewlinesExpands(a, b);
    OneFieldLine(name, value);
  }

  /**
   * The release-notes case: "Release notes|line1\\nline2" gives the single
   * Field ("Release notes", "line1" newline "line2").
   */
  lemma ReleaseNotesField()
    ensures FieldsOf("Release notes|line1\\nline2") == [Field("Release notes", "line1\nline2", false)]
  {
    var name, a, b := "Release notes", "line1", "line2";
    assert '|' !in name && '\n' !in name;
    assert '\\' !in a && '\\' !in b && '\n' !in a && '\n' !in b;
    assert name + "|" + (a + "\\n" + b) == "Release notes|line1\\nline2";
    assert a + "\n" + b == "line1\nline2";
    EscapedFieldLine(name, a, b);
  }
}
