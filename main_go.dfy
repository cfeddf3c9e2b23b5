/**
 * main.go: the step's entry point in its newest form. The build result
 * (the package global read from BITRISE_BUILD_STATUS) is the parameter
 * `success` and the clock is `now`. The stages main runs are closures over
 * the local config and message; here each stage is a function from the
 * session (config, message and the exports made so far) to the new session
 * and its error, and run threads the session through them.
 *
 * main.go declares selectValue, selectBool and ensureNewlines exactly as
 * lib/slack/message_util.go does; the model uses SlackMessageUtil's and
 * Escapes'.
 */
module MainGo {
  import opened Wrappers
  import opened GoStrings
  import opened Escapes
  import opened PairsFormat
  import opened Errors
  import opened Exchange
  import opened StepConfig
  import opened MessageGo
  import opened SlackMessageUtil
  import Json
  import Outputs

  // ---------------------------------------------------------------------
  // Message construction

  /** pairs (main.go:90-101), the same loop as the other two generations'. */
  method Pairs(s: string) returns (ps: seq<Pair>)
    ensures ps == PairsOf(s)
  {
    var lines := Split(s, '\n');
    ps := [];
    for i := 0 to |lines|
      invariant ps == PairsOfLines(lines[..i])
    {
      var a := SplitN2(lines[i], '|');
      if |a| == 2 && a[0] != "" && a[1] != "" {
        ps := ps + [Pair(a[0], a[1])];
      }
      assert lines[..i + 1][..i] == lines[..i];
    }
    assert lines[..|lines|] == lines;
  }

  /**
   * parseFields (main.go:76-81): one Field per pair, values verbatim, as in
   * lib/slack and unlike message.go.
   */
  method ParseFields(s: string) returns (fs: seq<Field>)
    ensures fs == PlainFieldsOf(s)
  {
    var ps := Pairs(s);
    fs := [];
    for i := 0 to |ps|
      invariant |fs| == i
      invariant forall k :: 0 <= k < i ==> fs[k] == Field(ps[k].name, ps[k].value, false)
    {
      fs := fs + [Field(ps[i].name, ps[i].value, false)];
    }
  }

  /** parseButtons (main.go:83-88): one Button per pair, text and url verbatim. */
  method ParseButtons(s: string) returns (bs: seq<Button>)
    ensures bs == ButtonsOf(s)
  {
    var ps := Pairs(s);
    bs := [];
    for i := 0 to |ps|
      invariant |bs| == i
      invariant forall k :: 0 <= k < i ==> bs[k] == Button("", ps[k].name, ps[k].value, "")
    {
      bs := bs + [Button("", ps[i].name, ps[i].value, "")];
    }
  }

  /**
   * newMessage (main.go:44-74): builds the same message as lib/slack's
   * NewMessage for every config, build result and clock.
   */
  method NewMessage(c: Config, success: bool, now: int) returns (msg: Message)
    ensures msg == MessageFor(c, success, now)
  {
    var fields := ParseFields(c.fields);
    var buttons := ParseButtons(c.buttons);
    var body := EnsureNewlines(SelectValue(success, c.message, c.messageOnError));
    var attachment := Attachment(
      body,
      SelectValue(success, c.color, c.colorOnError),
      SelectValue(success, c.preText, c.preTextOnError),
      c.authorName,
      SelectValue(success, c.title, c.titleOnError),
      c.titleLink,
      body,
      fields,
      SelectValue(success, c.imageURL, c.imageURLOnError),
      SelectValue(success, c.thumbURL, c.thumbURLOnError),
      c.footer,
      c.footerIcon,
      0,
      buttons);
    msg := Message(
      TrimSpace(SelectValue(success, c.channel, c.channelOnError)),
      SelectValue(success, c.text, c.textOnError),
      [attachment],
      SelectValue(success, c.iconEmoji, c.iconEmojiOnError),
      SelectValue(success, c.iconURL, c.iconURLOnError),
      c.linkNames,
      SelectValue(success, c.username, c.usernameOnError),
      SelectValue(success, c.threadTs, c.threadTsOnError),
      "",
      SelectBool(success, c.replyBroadcast, c.replyBroadcastOnError));
    if c.timeStamp {
      msg := msg.(attachments := [msg.attachments[0].(timeStamp := now)]);
    }
  }

  // ---------------------------------------------------------------------
  // validate

  /**
   * validate (main.go:150-161): with neither a token nor a webhook the
   * config is refused and left as it is; with both, the webhook is cleared
   * and the token kept; with exactly one, nothing changes.
   */
  function Validate(c: Config): (r: (Config, Option<StepError>))
    ensures c.apiToken == "" && c.webhookURL == "" ==> r == (c, Some(CredentialsMissing))
    ensures c.apiToken != "" && c.webhookURL != "" ==> r == (c.(webhookURL := ""), None)
    ensures (c.apiToken == "") != (c.webhookURL == "") ==> r == (c, None)
    ensures r.1.None? ==> r.0.apiToken != "" || r.0.webhookURL != ""
    ensures r.1.None? ==> !(r.0.apiToken != "" && r.0.webhookURL != "")
  {
    if c.apiToken == "" && c.webhookURL == "" then
      (c, Some(CredentialsMissing))
    else if c.apiToken != "" && c.webhookURL != "" then
      (c.(webhookURL := ""), None)
    else
      (c, None)
  }

  /** Validating a validated config changes nothing more. */
  lemma ValidateIdempotent(c: Config)
    requires Validate(c).1.None?
    ensures Validate(Validate(c).0) == (Validate(c).0, None)
  {
  }

  // ---------------------------------------------------------------------
  // postMessage

  /**
   * The URL postMessage sends to: the trimmed selected webhook, or
   * chat.postMessage when that is empty.
   */
  function TargetUrl(conf: Config, success: bool): (url: string)
    ensures var w := TrimSpace(SelectValue(success, conf.webhookURL, conf.webhookURLOnError));
      && (w == "" ==> url == ChatPostMessageUrl)
      && (w != "" ==> url == w)
  {
    var w := TrimSpace(SelectValue(success, conf.webhookURL, conf.webhookURLOnError));
    if w == "" then ChatPostMessageUrl else w
  }

  /** The request postMessage sends: a POST of the encoded message. */
  function RequestOf(conf: Config, msg: Message, success: bool): (req: Request)
    ensures req.verb == "POST" && req.url == TargetUrl(conf, success)
    ensures req.payload == Json.JObject(MessageJson(msg))
    ensures req.headers == Headers(conf.apiToken)
    ensures HasHeader(req, "Authorization") <==> conf.apiToken != ""
  {
    Request("POST", TargetUrl(conf, success), Headers(conf.apiToken), Json.JObject(MessageJson(msg)))
  }

  /** The two config members exportOutputs reads. */
  function OutputsConfigOf(conf: Config): Outputs.OutputsConfig {
    Outputs.OutputsConfig(conf.webhookURL, conf.threadTsOutputVariableName)
  }

  /**
   * What postMessage does once the request is built: a transport failure
   * and a non-200 reply are errors with nothing exported; a 200 reply is
   * handed to exportOutputs, whose error comes back wrapped. The deferred
   * close of the body assigns a variable the function has already returned
   * past, so it never changes the result.
   */
  function PostOutcome(conf: Config, reply: Reply, envman: Option<string>): (r: Outputs.Outcome)
    ensures reply.NoReply? ==> r == Outputs.Outcome([], Some(SendFailed(reply.cause)))
    ensures reply.Reply? && reply.statusCode != StatusOK ==>
              && r.exports == [] && r.err.Some?
              && (r.err.value.ServerError? || r.err.value.ServerReadFailed?)
    ensures reply.Reply? && reply.statusCode == StatusOK ==>
              var o := Outputs.ExportOutputs(OutputsConfigOf(conf), reply.body, envman);
              && r.exports == o.exports
              && r.err == (if o.err.Some? then Some(ExportFailed(o.err.value)) else None)
  {
    match reply
    case NoReply(cause) => Outputs.Outcome([], Some(SendFailed(cause)))
    case Reply(statusCode, status, body) =>
      if statusCode != StatusOK then
        match body
        case Unreadable(cause) => Outputs.Outcome([], Some(ServerReadFailed(status, cause)))
        case Body(text, _) => Outputs.Outcome([], Some(ServerError(status, text)))
      else
        var o := Outputs.ExportOutputs(OutputsConfigOf(conf), body, envman);
        if o.err.Some? then Outputs.Outcome(o.exports, Some(ExportFailed(o.err.value))) else o
  }

  /**
   * postMessage (main.go:104-148): builds the request step by step, then
   * follows the reply.
   */
  method PostMessage(conf: Config, msg: Message, success: bool, reply: Reply, envman: Option<string>)
    returns (req: Request, exports: seq<Export>, err: Option<StepError>)
    ensures req == RequestOf(conf, msg, success)
    ensures Outputs.Outcome(exports, err) == PostOutcome(conf, reply, envman)
  {
    var payload := Json.JObject(MessageJson(msg));
    var url := TrimSpace(SelectValue(success, conf.webhookURL, conf.webhookURLOnError));
    if url == "" {
      url := ChatPostMessageUrl;
    }
    var headers := [ContentType];
    if conf.apiToken != "" {
      headers := headers + [Bearer(conf.apiToken)];
    }
    req := Request("POST", url, headers, payload);
    exports := [];
    if reply.NoReply? {
      return req, exports, Some(SendFailed(reply.cause));
    }
    if reply.statusCode != StatusOK {
      match reply.body {
        case Unreadable(cause) =>
          return req, exports, Some(ServerReadFailed(reply.status, cause));
        case Body(text, _) =>
          return req, exports, Some(ServerError(reply.status, text));
      }
    }
    var o := Outputs.ExportOutputs(OutputsConfigOf(conf), reply.body, envman);
    exports := o.exports;
    if o.err.Some? {
      return req, exports, Some(ExportFailed(o.err.value));
    }
    err := None;
  }

  /**
   * After a failed build, a config holding a token, a webhook and an
   * on-error webhook passes validation with its webhook cleared, yet the
   * message goes to the on-error webhook; and since the output guard reads
   * only the cleared webhook, an output requested then is looked for in the
   * webhook's reply.
   */
  lemma OnErrorWebhookAfterValidate(c: Config, msg: Message)
    requires c.apiToken != "" && c.webhookURL != ""
    requires TrimSpace(c.webhookURLOnError) != ""
    ensures var v := Validate(c).0;
      && Validate(c).1.None?
      && RequestOf(v, msg, false).url == TrimSpace(c.webhookURLOnError)
      && RequestOf(v, msg, true).url == ChatPostMessageUrl
      && TrimSpace(OutputsConfigOf(v).webhookURL) == ""
  {
    var v := Validate(c).0;
    assert c.webhookURLOnError != "" by { TrimSpaceEmpty(c.webhookURLOnError); }
    TrimSpaceEmpty(v.webhookURL);
  }

  // ---------------------------------------------------------------------
  // run and the stages of main

  /**
   * What the stages share: the config, the message, the exports made and
   * the requests sent, oldest first.
   */
  datatype Session = Session(conf: Config, msg: Message, exports: seq<Export>, sent: seq<Request>)

  /** A stage: the session it leaves and its error. */
  type Stage = Session -> (Session, Option<StepError>)

  /**
   * The stages applied in order until one reports an error: its session
   * and error are the result, and the stages after it are not applied.
   */
  function Execute(stages: seq<Stage>, s: Session): (Session, Option<StepError>)
    decreases |stages|
  {
    if stages == [] then (s, None)
    else
      var (t, e) := stages[0](s);
      if e.Some? then (t, e) else Execute(stages[1..], t)
  }

  /**
   * run (main.go:165-172): the loop over the stages with an early return
   * on the first error.
   */
  method Run(stages: seq<Stage>, s: Session) returns (t: Session, err: Option<StepError>)
    ensures (t, err) == Execute(stages, s)
  {
    t := s;
    var i := 0;
    while i < |stages|
      invariant 0 <= i <= |stages|
      invariant Execute(stages, s) == Execute(stages[i..], t)
    {
      var (next, e) := stages[i](t);
      if e.Some? {
        return next, e;
      }
      assert stages[i..][1..] == stages[i + 1..];
      t := next;
      i := i + 1;
    }
    err := None;
  }

  /**
   * Running a + b is running a and, only if a ended without error, b from
   * where a left off.
   */
  lemma {:induction false} ExecuteAppend(a: seq<Stage>, b: seq<Stage>, s: Session)
    ensures Execute(a + b, s) ==
      (var (t, e) := Execute(a, s); if e.Some? then (t, e) else Execute(b, t))
    decreases |a|
  {
    if a == [] {
      assert a + b == b;
    } else {
      assert (a + b)[1..] == a[1..] + b;
      var (t, e) := a[0](s);
      if e.None? {
        ExecuteAppend(a[1..], b, t);
      }
    }
  }

  /**
   * Fail fast: when the stages before k end without error and stage k
   * reports one, the run ends with stage k's session and error, and no
   * later stage is applied.
   */
  lemma FirstFailureEnds(stages: seq<Stage>, s: Session, k: nat)
    requires k < |stages|
    requires Execute(stages[..k], s).1.None?
    requires stages[k](Execute(stages[..k], s).0).1.Some?
    ensures Execute(stages, s) == stages[k](Execute(stages[..k], s).0)
  {
    var t := Execute(stages[..k], s).0;
    assert stages == stages[..k] + stages[k..];
    ExecuteAppend(stages[..k], stages[k..], s);
    assert stages[k..][0] == stages[k];
  }

  /**
   * The run ends without error exactly when every stage, applied to the
   * session the stages before it left, returns no error.
   */
  lemma {:induction false} RunSucceedsIff(stages: seq<Stage>, s: Session)
    ensures Execute(stages, s).1.None? <==>
      forall k :: 0 <= k < |stages| ==> stages[k](Execute(stages[..k], s).0).1.None?
    decreases |stages|
  {
    if stages != [] {
      var n := |stages| - 1;
      var front := stages[..n];
      RunSucceedsIff(front, s);
      ExecuteAppend(front, [stages[n]], s);
      assert stages == front + [stages[n]];
      assert stages[..n] == front;
      forall k | 0 <= k < n
        ensures stages[..k] == front[..k] && stages[k] == front[k]
      {
      }
      var (t, e) := Execute(front, s);
      if e.None? {
        assert Execute([stages[n]], t) == stages[n](t);
      } else {
        // the front failed, so some stage of it returned an error
        assert !(forall k :: 0 <= k < |front| ==> front[k](Execute(front[..k], s).0).1.None?);
      }
    }
  }

  /** The validate stage: replaces the config by the validated one. */
  function ValidateStage(s: Session): (Session, Option<StepError>) {
    var (c, e) := Validate(s.conf);
    (s.(conf := c), e)
  }

  /** The createMessage stage: stores the message built from the config. */
  function CreateMessageStage(success: bool, now: int): Stage {
    (s: Session) => (s.(msg := MessageFor(s.conf, success, now)), None)
  }

  /**
   * The postMessage stage: sends the session's message with the session's
   * config and records the request and the exports it made.
   */
  function PostStage(success: bool, reply: Reply, envman: Option<string>): Stage {
    (s: Session) =>
      var o := PostOutcome(s.conf, reply, envman);
      (s.(exports := s.exports + o.exports, sent := s.sent + [RequestOf(s.conf, s.msg, success)]), o.err)
  }

  /**
   * The stages of main after the config is read (main.go:197-203):
   * validate, createMessage and postMessage.
   */
  function MainStages(success: bool, now: int, reply: Reply, envman: Option<string>): seq<Stage> {
    [ValidateStage, CreateMessageStage(success, now), PostStage(success, reply, envman)]
  }

  /**
   * With neither a token nor a webhook the run stops at validate: the
   * message is never built and nothing is sent or exported.
   */
  lemma MissingCredentialsStopEarly(s: Session, success: bool, now: int, reply: Reply, envman: Option<string>)
    requires s.conf.apiToken == "" && s.conf.webhookURL == ""
    ensures Execute(MainStages(success, now, reply, envman), s) == (s, Some(CredentialsMissing))
  {
  }

  /**
   * With credentials the message is built from the validated config, one
   * request is sent: that message, to the URL and with the headers the
   * validated config selects; and the run's error and exports are those
   * of posting it.
   */
  lemma CredentialsLeadToPost(s: Session, success: bool, now: int, reply: Reply, envman: Option<string>)
    requires s.conf.apiToken != "" || s.conf.webhookURL != ""
    ensures var c := Validate(s.conf).0;
      var m := MessageFor(c, success, now);
      var o := PostOutcome(c, reply, envman);
      Execute(MainStages(success, now, reply, envman), s)
        == (Session(c, m, s.exports + o.exports, s.sent + [RequestOf(c, m, success)]), o.err)
  {
    var c := Validate(s.conf).0;
    var s1 := s.(conf := c);
    var s2 := s1.(msg := MessageFor(c, success, now));
    assert ValidateStage(s) == (s1, None);
    assert CreateMessageStage(success, now)(s1) == (s2, None);
    TwoQuietStages(ValidateStage, CreateMessageStage(success, now), PostStage(success, reply, envman), s);
  }

  /** When the first two of three stages report no error, the run is the third stage's outcome. */
  lemma TwoQuietStages(a: Stage, b: Stage, c: Stage, s: Session)
    requires a(s).1.None? && b(a(s).0).1.None?
    ensures Execute([a, b, c], s) == c(b(a(s).0).0)
  {
    var t1 := a(s).0;
    var t2 := b(t1).0;
    assert [c][1..] == [];
    assert Execute([c], t2) == c(t2);
    assert [b, c][1..] == [c];
    assert Execute([b, c], t1) == Execute([c], t2);
    assert [a, b, c][1..] == [b, c];
    assert Execute([a, b, c], s) == Execute([b, c], t1);
  }
}
