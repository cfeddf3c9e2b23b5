/**
 * lib/slack/client.go: the newest generation's Slack client. The target
 * webhook comes from a string selector (UtilSelect); the HTTP exchange is
 * the input `reply`, and the error closing the reply body, if any, the
 * input `closeErr`. The logger is not modelled.
 */
module SlackClient {
  import opened Wrappers
  import opened GoStrings
  import opened Errors
  import opened Exchange
  import opened StepConfig
  import opened UtilSelect
  import Json
  import MessageGo

  /** A SlackClient: the config and the webhook URL selector it posts with. */
  datatype Client = Client(conf: Config, webhookUrlSelector: StringSelector)

  /**
   * IsWebhook: the selected webhook URL, trimmed, is not empty; a URL made
   * of white space alone is no webhook.
   */
  predicate IsWebhook(sel: StringSelector): (w: bool)
    ensures w <==> !AllSpace(GetString(sel))
  {
    TrimSpaceEmpty(GetString(sel));
    TrimSpace(GetString(sel)) != ""
  }

  /** isRequestingOutput: an output variable name is configured. */
  predicate IsRequestingOutput(conf: Config) {
    conf.threadTsOutputVariableName != ""
  }

  /**
   * The URL Post sends to: the trimmed selected webhook, or chat.postMessage
   * when that is empty.
   */
  function TargetUrl(sel: StringSelector): (url: string)
    ensures !IsWebhook(sel) ==> url == ChatPostMessageUrl
    ensures IsWebhook(sel) ==> url == TrimSpace(GetString(sel)) && url != ""
  {
    var trimmed := TrimSpace(GetString(sel));
    if trimmed == "" then ChatPostMessageUrl else trimmed
  }

  /** The request Post sends: a POST of the encoded message. */
  function RequestOf(client: Client, msg: MessageGo.Message): (req: Request)
    ensures req.verb == "POST"
    ensures req.payload == Json.JObject(MessageGo.MessageJson(msg))
    ensures req.url == TargetUrl(client.webhookUrlSelector)
    ensures req.headers == Headers(client.conf.apiToken)
    ensures HasHeader(req, "Authorization") <==> client.conf.apiToken != ""
  {
    Request("POST", TargetUrl(client.webhookUrlSelector), Headers(client.conf.apiToken),
      Json.JObject(MessageGo.MessageJson(msg)))
  }

  /**
   * parseMessageResponse (client.go:79-99): no output requested gives the
   * zero response and no error, even over a webhook; an output requested
   * over a webhook is an error; otherwise the decoded response, or a parse
   * error.
   */
  function ParseMessageResponse(isWebhook: bool, conf: Config, body: Body): (r: (SendMessageResponse, Option<StepError>))
    ensures !IsRequestingOutput(conf) ==> r == (NoResponse, None)
    ensures IsRequestingOutput(conf) && isWebhook ==> r == (NoResponse, Some(ClientOutputOverWebhook))
    ensures r.1.None? && IsRequestingOutput(conf) ==>
              body.Body? && body.decoded == Ok(r.0)
    ensures r.1.Some? ==> r.0 == NoResponse
  {
    if !IsRequestingOutput(conf) then (NoResponse, None)
    else if isWebhook then (NoResponse, Some(ClientOutputOverWebhook))
    else match body
      case Unreadable(cause) => (NoResponse, Some(ClientParseFailed(cause)))
      case Body(_, decoded) =>
        match decoded
        case Err(cause) => (NoResponse, Some(ClientParseFailed(cause)))
        case Ok(response) => (response, None)
  }

  /**
   * The error Post reports once the reply is in, before the deferred close
   * of the body: a non-200 status is a server error whatever the body
   * holds; otherwise a response-parsing error, wrapped.
   */
  function ReplyError(client: Client, statusCode: int, status: string, body: Body): (r: (SendMessageResponse, Option<StepError>))
    ensures statusCode != StatusOK ==>
              && r.0 == NoResponse && r.1.Some?
              && (r.1.value.ServerError? || r.1.value.ServerReadFailed?)
  {
    if statusCode != StatusOK then
      match body
      case Unreadable(cause) => (NoResponse, Some(ServerReadFailed(status, cause)))
      case Body(text, _) => (NoResponse, Some(ServerError(status, text)))
    else
      var (resp, err) := ParseMessageResponse(IsWebhook(client.webhookUrlSelector), client.conf, body);
      if err.Some? then (resp, Some(ExportFailed(err.value))) else (resp, None)
  }

  /**
   * What Post returns for a reply: a transport failure is reported as is;
   * once a reply is in, the deferred close of its body replaces a nil
   * error with its own.
   */
  function PostResult(client: Client, reply: Reply, closeErr: Option<string>): (r: (SendMessageResponse, Option<StepError>))
    ensures reply.NoReply? ==> r == (NoResponse, Some(SendFailed(reply.cause)))
    ensures reply.Reply? && reply.statusCode != StatusOK ==>
              r == ReplyError(client, reply.statusCode, reply.status, reply.body)
  {
    match reply
    case NoReply(cause) => (NoResponse, Some(SendFailed(cause)))
    case Reply(statusCode, status, body) =>
      var (resp, err) := ReplyError(client, statusCode, status, body);
      if err.None? && closeErr.Some? then (resp, Some(Collaborator(closeErr.value))) else (resp, err)
  }

  /**
   * SlackClient.Post (client.go:21-72): builds the request, then assigns
   * the named results resp and err step by step; the deferred close runs on
   * every return after the reply arrived. The JSON encoding of a message
   * cannot fail, so the marshal error branch is not reachable.
   */
  method Post(client: Client, msg: MessageGo.Message, reply: Reply, closeErr: Option<string>)
    returns (req: Request, resp: SendMessageResponse, err: Option<StepError>)
    ensures req == RequestOf(client, msg)
    ensures (resp, err) == PostResult(client, reply, closeErr)
  {
    var payload := Json.JObject(MessageGo.MessageJson(msg));
    var url := TrimSpace(GetString(client.webhookUrlSelector));
    if url == "" {
      url := ChatPostMessageUrl;
    }
    var headers := [ContentType];
    if client.conf.apiToken != "" {
      headers := headers + [Bearer(client.conf.apiToken)];
    }
    req := Request("POST", url, headers, payload);
    resp, err := NoResponse, None;
    if reply.NoReply? {
      err := Some(SendFailed(reply.cause));
      return;
    }
    if reply.statusCode != StatusOK {
      match reply.body {
        case Unreadable(cause) =>
          err := Some(ServerReadFailed(reply.status, cause));
        case Body(text, _) =>
          err := Some(ServerError(reply.status, text));
      }
    } else {
      resp, err := ParseMessageResponse(IsWebhook(client.webhookUrlSelector), client.conf, reply.body).0,
                   ParseMessageResponse(IsWebhook(client.webhookUrlSelector), client.conf, reply.body).1;
      if err.Some? {
        err := Some(ExportFailed(err.value));
      }
    }
    // the deferred close of the reply body
    if err.None? && closeErr.Some? {
      err := Some(Collaborator(closeErr.value));
    }
  }

  /**
   * With a 200 reply and no output requested, Post succeeds with the zero
   * response unless closing the body fails, webhook or not.
   */
  lemma NoOutputRequested(client: Client, status: string, body: Body, closeErr: Option<string>)
    requires !IsRequestingOutput(client.conf)
    ensures PostResult(client, Reply(StatusOK, status, body), closeErr)
              == (NoResponse, if closeErr.Some? then Some(Collaborator(closeErr.value)) else None)
  {
  }

  /**
   * With a 200 reply and an output requested over a webhook, Post fails
   * with the wrapped webhook error, whatever the body.
   */
  lemma OutputOverWebhookFails(client: Client, status: string, body: Body, closeErr: Option<string>)
    requires IsRequestingOutput(client.conf) && IsWebhook(client.webhookUrlSelector)
    ensures PostResult(client, Reply(StatusOK, status, body), closeErr)
              == (NoResponse, Some(ExportFailed(ClientOutputOverWebhook)))
  {
  }

  /**
   * Post succeeds with an output exactly when the reply is a 200 whose body
   * decodes, no webhook is used and the body closes cleanly; the response
   * is then the decoded one.
   */
  lemma OutputDelivered(client: Client, reply: Reply, closeErr: Option<string>)
    requires IsRequestingOutput(client.conf)
    ensures PostResult(client, reply, closeErr).1.None? <==>
      && reply.Reply? && reply.statusCode == StatusOK
      && !IsWebhook(client.webhookUrlSelector)
      && reply.body.Body? && reply.body.decoded.Ok?
      && closeErr.None?
    ensures PostResult(client, reply, closeErr).1.None? ==>
      PostResult(client, reply, closeErr).0 == reply.body.decoded.value
  {
  }
}
