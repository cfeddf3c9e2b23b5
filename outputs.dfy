/**
 * outputs.go: after a successful post, the export of the thread timestamp
 * of the reply as an output variable. Reading the body and decoding it are
 * inputs (Exchange.Body); the envman call is a collaborator whose failure,
 * if any, is given as the text of its error.
 */
module Outputs {
  import opened Wrappers
  import opened GoStrings
  import opened Errors
  import opened Exchange

  /** The two members of the step's config that exportOutputs reads. */
  datatype OutputsConfig = OutputsConfig(webhookURL: string, threadTsOutputVariableName: string)

  /** What exportOutputs did: the exports it made, in order, and its error. */
  datatype Outcome = Outcome(exports: seq<Export>, err: Option<StepError>)

  /** isRequestingOutput: an output variable name is configured. */
  predicate IsRequestingOutput(conf: OutputsConfig) {
    conf.threadTsOutputVariableName != ""
  }

  /**
   * exportOutputs (outputs.go:20-57): a chain of guards. Not requested: no
   * error, nothing read. A webhook configured: an error. The body unreadable
   * or not a response: an error. Otherwise the timestamp is exported once
   * under the configured name and the collaborator's error, if any, is
   * passed on unchanged.
   */
  function ExportOutputs(conf: OutputsConfig, body: Body, envman: Option<string>): (r: Outcome)
    ensures |r.exports| <= 1
    ensures !IsRequestingOutput(conf) ==> r == Outcome([], None)
    ensures IsRequestingOutput(conf) && TrimSpace(conf.webhookURL) != "" ==>
              r == Outcome([], Some(OutputOverWebhook))
    ensures r.exports != [] ==>
              && body.Body? && body.decoded.Ok?
              && r.exports == [Export(conf.threadTsOutputVariableName, body.decoded.value.timestamp)]
    ensures r.err.None? && IsRequestingOutput(conf) ==> r.exports != []
  {
    if !IsRequestingOutput(conf) then
      Outcome([], None)
    else if TrimSpace(conf.webhookURL) != "" then
      Outcome([], Some(OutputOverWebhook))
    else
      match body
      case Unreadable(cause) => Outcome([], Some(ReadResponseFailed(cause)))
      case Body(_, decoded) =>
        match decoded
        case Err(cause) => Outcome([], Some(ParseResponseFailed(cause)))
        case Ok(response) =>
          // the guard of outputs.go:48 repeats the test above and always holds here
          var exports := [Export(conf.threadTsOutputVariableName, response.timestamp)];
          match envman
          case Some(text) => Outcome(exports, Some(Collaborator(text)))
          case None => Outcome(exports, None)
  }

  /**
   * The export happens exactly when an output is requested, no webhook is
   * configured and the body reads and decodes; it is then the only one.
   */
  lemma ExportIff(conf: OutputsConfig, body: Body, envman: Option<string>)
    ensures var r := ExportOutputs(conf, body, envman);
      r.exports != [] <==>
        && IsRequestingOutput(conf)
        && TrimSpace(conf.webhookURL) == ""
        && body.Body? && body.decoded.Ok?
  {
  }

  /**
   * Each way the guard chain can fail, with the error it reports; none of
   * them exports anything.
   */
  lemma ExportErrors(conf: OutputsConfig, body: Body, envman: Option<string>)
    requires IsRequestingOutput(conf) && TrimSpace(conf.webhookURL) == ""
    ensures body.Unreadable? ==>
      ExportOutputs(conf, body, envman) == Outcome([], Some(ReadResponseFailed(body.cause)))
    ensures body.Body? && body.decoded.Err? ==>
      ExportOutputs(conf, body, envman) == Outcome([], Some(ParseResponseFailed(body.decoded.error)))
  {
  }

  /**
   * On the success path the collaborator's error is the result, unchanged,
   * and the export was still attempted.
   */
  lemma EnvmanErrorPassedOn(conf: OutputsConfig, text: string, response: SendMessageResponse, raw: string)
    requires IsRequestingOutput(conf) && TrimSpace(conf.webhookURL) == ""
    ensures ExportOutputs(conf, Body(raw, Ok(response)), Some(text))
              == Outcome([Export(conf.threadTsOutputVariableName, response.timestamp)], Some(Collaborator(text)))
  {
  }

  /**
   * Two bodies that decode to the same response give the same outcome,
   * whatever else their text holds. This holds because SendMessageResponse
   * has the single member ts, the only one json.Unmarshal fills; a
   * response type with more members would make it a statement about those
   * too.
   */
  lemma OnlyTimestampMatters(conf: OutputsConfig, t1: string, t2: string,
                             d: Result<SendMessageResponse, string>, envman: Option<string>)
    ensures ExportOutputs(conf, Body(t1, d), envman) == ExportOutputs(conf, Body(t2, d), envman)
  {
  }
}
