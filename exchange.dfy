/**
 * The HTTP exchange with Slack, as abstract values: what the step sends and
 * what comes back. The transport itself is not modelled; its outcome is an
 * input.
 */
module Exchange {
  import opened Wrappers
  import Json

  /** The part of Slack's reply the step decodes: only the "ts" member. */
  datatype SendMessageResponse = SendMessageResponse(timestamp: string)

  /** The zero SendMessageResponse Go starts from. */
  const NoResponse := SendMessageResponse("")

  /**
   * A reply body: unreadable (the read failed with a cause), or its text
   * together with what decoding it as a SendMessageResponse gives.
   */
  datatype Body =
    | Unreadable(cause: string)
    | Body(text: string, decoded: Result<SendMessageResponse, string>)

  /** What client.Do gives: a transport error, or a status and a body. */
  datatype Reply =
    | NoReply(cause: string)
    | Reply(statusCode: int, status: string, body: Body)

  datatype Header = Header(name: string, value: string)

  /** The request handed to the HTTP client. */
  datatype Request = Request(verb: string, url: string, headers: seq<Header>, payload: Json.Json)

  /** An export of one output variable through the envman collaborator. */
  datatype Export = Export(key: string, value: string)

  const StatusOK: int := 200
  const ChatPostMessageUrl: string := "https://slack.com/api/chat.postMessage"
  const ContentType: Header := Header("Content-Type", "application/json; charset=utf-8")

  /** The request carries a header with this name. */
  predicate HasHeader(r: Request, name: string) {
    exists k :: 0 <= k < |r.headers| && r.headers[k].name == name
  }

  /** The Authorization header carrying a bot token. */
  function Bearer(token: string): Header {
    Header("Authorization", "Bearer " + token)
  }

  /**
   * The headers both posting functions set: the JSON content type and,
   * exactly when a token is configured, a bearer header.
   */
  function Headers(token: string): (hs: seq<Header>)
    ensures |hs| >= 1 && hs[0] == ContentType
    ensures (exists k :: 0 <= k < |hs| && hs[k].name == "Authorization") <==> token != ""
    ensures token != "" ==> Bearer(token) in hs
  {
    assert ContentType.name != "Authorization";
    var hs := if token != "" then [ContentType, Bearer(token)] else [ContentType];
    assert token != "" ==> hs[1].name == "Authorization";
    hs
  }
}
