/**
 * The errors the step reports. One constructor per distinct fmt.Errorf
 * site; Text gives the message the Go code formats.
 */
module Errors {

  datatype StepError =
    | CredentialsMissing                          // main.go validate
    | SendFailed(cause: string)                   // client.Do failed
    | ServerReadFailed(status: string, cause: string) // non-200, body unreadable
    | ServerError(status: string, body: string)   // non-200, body read
    | ExportFailed(inner: StepError)              // "failed to export outputs: ..."
    | OutputOverWebhook                           // outputs.go guard
    | ClientOutputOverWebhook                     // lib/slack/client.go guard
    | ReadResponseFailed(cause: string)           // outputs.go body read
    | ParseResponseFailed(cause: string)          // outputs.go json.Unmarshal
    | ClientParseFailed(cause: string)            // lib/slack/client.go json decode
    | Collaborator(text: string)                  // an error passed on unchanged (envman, Body.Close)

  /** The message of validate in main.go when no credential is given. */
  const CredentialsMissingText :=
    "Both API Token and WebhookURL are empty. You need to provide one of them. If you want to use incoming webhooks provide the webhook url. If you want to use a bot to send a message provide the bot API token"

  /**
   * The message of an error, as the Go code formats it. A wrapped error
   * keeps the inner message as its tail.
   */
  function Text(e: StepError): (t: string)
    ensures e.ExportFailed? ==>
              |Text(e.inner)| < |t| && t[|t| - |Text(e.inner)|..] == Text(e.inner)
  {
    match e
    case CredentialsMissing => CredentialsMissingText
    case SendFailed(cause) => "failed to send the request: " + cause
    case ServerReadFailed(status, cause) => "server error: " + status + ", failed to read response: " + cause
    case ServerError(status, body) => "server error: " + status + ", response: " + body
    case ExportFailed(inner) => "failed to export outputs: " + Text(inner)
    case OutputOverWebhook => "for output support, do not submit a WebHook URL"
    case ClientOutputOverWebhook => "For output support, do not submit a WebHook URL"
    case ReadResponseFailed(cause) => "failed to read response: " + cause
    case ParseResponseFailed(cause) => "failed to parse response: " + cause
    case ClientParseFailed(cause) => "Failed to parse response: " + cause
    case Collaborator(text) => text
  }

  /**
   * A failed export is reported with the outputs prefix in front of the
   * inner message, however deeply it is wrapped.
   */
  lemma ExportFailedPrefix(e: StepError)
    ensures var t := Text(ExportFailed(e));
      && |"failed to export outputs: "| <= |t|
      && t[..|"failed to export outputs: "|] == "failed to export outputs: "
  {
    var p := "failed to export outputs: ";
    var t := Text(ExportFailed(e));
    assert t == p + Text(e);
  }
}
