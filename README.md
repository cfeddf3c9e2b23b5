# steps-slack-message, modelled in Dafny

The repository is a Bitrise CI step. It posts a build-result message to
Slack, either through an incoming webhook or through `chat.postMessage`
with a bot token. It can also export the thread timestamp of the reply as
an output variable. The source holds three generations of this logic, and
each core file is modelled in a module of its own:

| Go file | Dafny module | flavour in the model |
|---|---|---|
| lib/util/select.go | `UtilSelect` (util_select.dfy) | functions on a two-variant datatype |
| lib/slack/message_util.go | `SlackMessageUtil` (slack_message_util.dfy) | selection functions; `pairs`, `parseFields`, `parseButtons` and `NewMessage` as methods proved against functions |
| message.go | `MessageGo` (message_go.dfy) | the message types; their JSON encoding as key→value maps; the parsers as methods |
| main.go | `MainGo` (main_go.dfy) | parsers and `newMessage` as methods; `validate` as a function; `run` as a loop over stage functions; `postMessage` as a method |
| lib/slack/client.go | `SlackClient` (slack_client.dfy) | `Post` as a method; `parseMessageResponse` and the decisions as functions |
| outputs.go | `Outputs` (outputs.dfy) | the guard chain of `exportOutputs` as a function |
| step.go | `StepGo` (step_go.dfy) | `CreatePayloadParam` as a method proved against a declarative `Params` |

Shared modules:

- `Wrappers` holds Option and Result.
- `GoStrings` holds the parts of Go's `strings` package the step uses (`Split`, `SplitN` with n = 2, `Replace`, `TrimSpace`) and the UTF-8 byte length.
- `Escapes` holds `ensureNewlines`.
- `PairsFormat` specifies the `name|value` lines format that the three `pairs` loops read.
- `Json` holds a JSON value whose object keys are the wire names used.
- `Errors` has one constructor per error the step formats, with the Go text.
- `Exchange` holds the HTTP request and reply as values, and the shared header rule.
- `StepConfig` holds the step inputs of lib/step/config.go.

Parameters stand in for the outside world:

- The build result is a parameter. The Go code reads it into a package variable from `BITRISE_BUILD_STATUS`.
- So is the clock (`time.Now().Unix()`).
- The HTTP reply is an input: a transport error, or a status and a body. The body is unreadable, or it is a text with the outcome of decoding its `ts` member.
- So is the outcome of the envman export, and of closing the reply body.

The three generations disagree in places, and the model keeps each as written:

- message.go expands escaped newlines in field values. main.go and lib/slack do not. `SlackMessageUtil.FieldsDiverge` states the difference.
- For strings, the generic selector returns the left value only when the right one is not empty. `selectValue` instead falls back to the success value. `SlackMessageUtil.SelectorAgreesWithSelectValue` gives exactly when the two agree.
- `validate` clears only `WebhookURL`. After a failed build, a configured `WebhookURLOnError` is therefore still the target even though a token is set, and the output guard of outputs.go reads only the cleared `WebhookURL` (`MainGo.OnErrorWebhookAfterValidate`).
- lib/slack/client.go:56-64 does not compile as written. `body, err :=` declares a new `err` in the `if` block, and the bare `return` statements in that block are then rejected, because the result `err` is shadowed. The model follows what the block evidently means: a non-200 status is a server error.
- In main.go, the deferred close of the body assigns a local `err` after an unnamed result was returned, so it never changes the result. In client.go the results are named, so a close error replaces a nil error. Both are modelled that way.

## Model

| member | source | states |
|---|---|---|
| UtilSelect.Get | lib/util/select.go:19-33 | for a string selector the result is one of the two stored strings, for a bool selector one of the two stored flags |
| UtilSelect.GetStringRule | lib/util/select.go:21-25 | the string rule: left exactly when left is preferred and right is not empty, right otherwise, so an empty right gives "" even when left is set and preferred |
| UtilSelect.GetBoolRule | lib/util/select.go:26-30 | the bool rule: left exactly when left is preferred, with no emptiness test |
| UtilSelect.SeedSelectGet | lib/util/select.go:9-17 | a selector seeded with v and built from (l, r) selects by v, l and r alone |
| SlackMessageUtil.SelectValue | lib/slack/message_util.go:13-18 | the result is one of the two values; the success value after a successful build; the failure value after a failed build when it is set; after a failed build it is empty only when both are (main.go:24-29 declares the same function) |
| SlackMessageUtil.SelectBool | lib/slack/message_util.go:21-26 | the success flag exactly when the build succeeded, the failure flag otherwise (main.go:32-37 declares the same function) |
| SlackMessageUtil.SelectorAgreesWithSelectValue | lib/util/select.go:21-25 | the seeded string selector and selectValue agree on (ifSuccess, ifFailed) exactly when an empty ifFailed comes with an empty ifSuccess, whatever the build result |
| Escapes.EnsureNewlines | lib/slack/message_util.go:28-31 | no two-character backslash-n is left in the result, and a string without one is returned unchanged |
| Errors.Text | main.go:127-152 | the fmt.Errorf message of each error; a failed export ends with the inner error's message |
| Errors.ExportFailedPrefix | main.go:144 | a failed export's message starts with `failed to export outputs: `, however deeply it is wrapped |
| Escapes.EnsureNewlinesIdempotent | main.go:39-42 | expanding twice is expanding once |
| Escapes.ExpandClears | lib/slack/message_util.go:30 | replacing every backslash-n, left to right, leaves none behind |
| Escapes.ExpandIdentity | lib/slack/message_util.go:30 | the replacement is the identity on strings without backslash-n |
| Escapes.EnsureNewlinesExpands | main.go:41 | a backslash-n between two backslash-free strings becomes a newline |
| GoStrings.TrimSpaceShape | main.go:46 | TrimSpace keeps a middle part of the string, drops white-space runs on both sides, and what it keeps neither starts nor ends with white space |
| GoStrings.TrimSpace | main.go:46 | strings.TrimSpace: the result is no longer than the input and neither starts nor ends with Go white space |
| GoStrings.ReplaceAll | main.go:40-42 | strings.Replace with n = -1: replacing a pattern by itself changes nothing, and a replacement of the pattern's length keeps the length |
| GoStrings.TrimSpaceEmpty | lib/slack/client.go:75 | TrimSpace gives "" exactly when the string is all white space |
| GoStrings.TrimSpaceIdempotent | lib/slack/message_util.go:62 | trimming twice is trimming once |
| GoStrings.Split | message.go:177 | there is always at least one part, and no part holds the separator |
| GoStrings.JoinSplit | message.go:177 | joining the parts with the separator gives the string back |
| GoStrings.SplitJoin | message.go:177 | splitting a join of separator-free parts gives the parts back |
| GoStrings.SplitN2 | message.go:178 | without a pipe the line is one part; with one, two parts, the first free of pipes, that joined by the pipe give the line back |
| GoStrings.ByteLen | message.go:130 | the UTF-8 byte length of a string: between its length and four times its length, and equal to its length for ASCII text |
| PairsFormat.LinePair | message.go:178-181 | a line yields an entry only if the entry is well formed (name non-empty and pipe-free, value non-empty) and name\|value is the line |
| PairsFormat.LinePairIff | message.go:178-181 | a line yields (n, v) exactly when the line is n\|v and (n, v) is well formed, so the split is at the first pipe |
| PairsFormat.NoPipeDropped | message.go:179 | a line without a pipe yields nothing |
| PairsFormat.EmptyValueDropped | message.go:179 | a line with an empty value yields nothing |
| PairsFormat.EmptyLabelDropped | message.go:179 | a line with an empty name yields nothing |
| PairsFormat.PairsOfLines | message.go:175-184 | no more entries than lines, each well formed |
| PairsFormat.PairsOfLinesAppend | message.go:177-182 | the entries of two runs of lines are the entries of the first then those of the second |
| PairsFormat.PairsOfLinesSnoc | message.go:177-182 | one more line adds its entry, if it has one, at the end |
| PairsFormat.OriginsSound | message.go:177-182 | the k-th entry comes from line Origins[k], and that line is name\|value |
| PairsFormat.OriginsIncreasing | message.go:177-182 | entries keep the order of their lines |
| PairsFormat.OriginsComplete | message.go:177-182 | every line that reads as an entry gives one |
| PairsFormat.PairsOrigin | lib/slack/message_util.go:47-58 | every entry has a source line, in order, and every readable line is used |
| PairsFormat.PairsOfShape | lib/slack/message_util.go:47-58 | every entry is well formed, name\|value is one of the lines, and there are no more entries than lines |
| PairsFormat.RenderRoundTrip | message.go:175-184 | rendering entries without newlines one per line and reading them back gives them back |
| PairsFormat.ValueKeepsPipes | message.go:178 | "a\|b\|c" gives the single entry ("a", "b\|c") |
| PairsFormat.MalformedLinesDropped | message.go:179-181 | of "a\|b", "no-pipe-line", "c\|" and "\|d" only ("a", "b") is kept |
| PairsFormat.OneEntry | message.go:175-184 | a single well-formed line gives exactly its entry |
| MessageGo.Pairs | message.go:175-184 | the loop builds exactly the specified entry list |
| MessageGo.FieldJson | message.go:126-132 | a Field encodes to exactly title, value and short, with short true exactly when the value is shorter than 40 bytes |
| MessageGo.ButtonJson | message.go:157-164 | a Button encodes to exactly type, text, url and style, with type "button" and style "default" whatever the Button holds |
| MessageGo.MessageMembers | message.go:10-42 | channel is always encoded; every other Message member is present exactly when it is not empty or false |
| MessageGo.AttachmentMembers | message.go:46-110 | fallback and color are always encoded; every other Attachment member is present exactly when it is not empty, 0 or an empty list |
| MessageGo.AttachmentTsAndActions | message.go:104-109 | the timestamp is the integer member ts, the buttons the array member actions |
| MessageGo.FieldRoundTrip | message.go:126-132 | reading an encoded Field gives it back with short recomputed |
| MessageGo.ButtonRoundTrip | message.go:157-164 | reading an encoded Button gives it back with the constant type and style |
| MessageGo.AttachmentRoundTrip | message.go:46-110 | reading an encoded Attachment gives it back, up to the recomputed field and button members |
| MessageGo.MessageRoundTrip | message.go:10-42 | reading an encoded Message gives it back, up to the same normalisation |
| MessageGo.MessageJsonInjective | message.go:10-42 | two Messages encode alike exactly when they agree after that normalisation |
| MessageGo.AttachmentJson | message.go:46-110 | the encoding/json object of an Attachment under its struct tags: each member present as MessageGo.AttachmentMembers states |
| MessageGo.MessageJson | message.go:10-42 | the encoding/json object of a Message under its struct tags: each member present as MessageGo.MessageMembers states |
| MessageGo.FieldsOf | message.go:134-139 | one Field per entry, in order, the name as title and the value with its escaped newlines expanded |
| MessageGo.ButtonsOf | message.go:166-171 | one Button per entry, in order, the name as text and the value as url, verbatim |
| MessageGo.ParseFields | message.go:134-139 | the loop builds exactly FieldsOf |
| MessageGo.ParseButtons | message.go:166-171 | the loop builds exactly ButtonsOf |
| MessageGo.FieldsExpanded | message.go:136 | no field value holds an escaped newline; titles are the entry names unchanged |
| MessageGo.ReleaseNotesField | message_test.go:14-18 | "Release notes\|line1\\nline2" gives the single Field ("Release notes", "line1" newline "line2") |
| SlackMessageUtil.Pairs | lib/slack/message_util.go:47-58 | the loop builds exactly the specified entry list |
| SlackMessageUtil.PlainFieldsOf | lib/slack/message_util.go:33-38 | one Field per entry, in order, name and value verbatim |
| SlackMessageUtil.ParseFields | lib/slack/message_util.go:33-38 | the loop builds exactly PlainFieldsOf |
| SlackMessageUtil.ParseButtons | lib/slack/message_util.go:40-45 | the loop builds the same buttons as message.go's parser |
| SlackMessageUtil.FieldsDiverge | lib/slack/message_util.go:35 | message.go's fields differ from these only in their values, which it expands |
| SlackMessageUtil.ReleaseNotesKeptVerbatim | lib/slack/message_util.go:35 | here "Release notes\|line1\\nline2" keeps its backslash-n in the field value |
| SlackMessageUtil.MessageFor | lib/slack/message_util.go:60-90 | exactly one attachment, whose fallback and text are both the selected message expanded (no escaped newline left), the channel is the selected channel trimmed, the timestamp is the clock when asked for and 0 otherwise, fields and buttons come from the lists |
| SlackMessageUtil.NewMessage | lib/slack/message_util.go:60-90 | builds MessageFor, setting the timestamp in place afterwards |
| SlackMessageUtil.SuccessTakesPrimary | lib/slack/message_util.go:62-84 | after a successful build every selected member is its success value |
| SlackMessageUtil.FailureTakesOnError | lib/slack/message_util.go:62-84 | after a failed build every selected string member (channel, text, emoji, icon, username, thread_ts, message, color, pretext, title, image_url, thumb_url) is its on-error value when that is set, and reply_broadcast always is |
| SlackMessageUtil.UnselectedCopied | lib/slack/message_util.go:68-81 | author name, title link, footer, footer icon and link names are copied and do not depend on the build result |
| SlackMessageUtil.MessageForEncoding | lib/slack/message_util.go:86-88 | the built message always encodes channel and attachments, its attachment fallback and color, and ts exactly when a timestamp was asked for and the clock is not 0 |
| SlackMessageUtil.TestConfigOnSuccess | main_test.go:208-219 | the test configuration after a successful build gives channel "channel", the one field ("title", "value") and the one button ("text", "url") |
| MainGo.Pairs | main.go:90-101 | the loop builds exactly the specified entry list |
| MainGo.ParseFields | main.go:76-81 | the loop builds the verbatim fields, as in lib/slack |
| MainGo.ParseButtons | main.go:83-88 | the loop builds the same buttons as the other parsers |
| MainGo.NewMessage | main.go:44-74 | builds the same message as lib/slack's NewMessage for every config, build result and clock |
| MainGo.Validate | main.go:150-161 | both credentials empty: error, config unchanged; both set: webhook cleared, token kept; exactly one: unchanged; after success exactly one credential is set |
| MainGo.ValidateIdempotent | main.go:150-161 | validating a validated config changes nothing |
| MainGo.TargetUrl | main.go:111-114 | the trimmed selected webhook, or chat.postMessage when that is empty |
| MainGo.RequestOf | main.go:111-121 | a POST of the encoded message to TargetUrl, whose headers are exactly Headers of the token: the JSON content type, and `Bearer <token>` exactly when a token is set |
| Exchange.Headers | main.go:117-121 | the JSON content type first, and a bearer header exactly when a token is set |
| MainGo.PostOutcome | main.go:125-147 | a transport failure and a non-200 reply are errors with nothing exported; a 200 reply exports what exportOutputs exports and fails exactly when it does, with its error wrapped as an export failure |
| MainGo.PostMessage | main.go:104-148 | the request is RequestOf, and the exports and error are PostOutcome |
| MainGo.OnErrorWebhookAfterValidate | main.go:111 | with a token, a webhook and an on-error webhook, validation passes, a failed build posts to the on-error webhook and a successful one to chat.postMessage, while the output guard sees no webhook |
| MainGo.Run | main.go:165-172 | the loop with early return computes Execute |
| MainGo.Execute | main.go:165-172 | the stages applied in order until the first that reports an error, whose session and error are the result |
| MainGo.ExecuteAppend | main.go:165-172 | running a + b is running a and, only when a ended without error, b from where a left off |
| MainGo.FirstFailureEnds | main.go:167-169 | when the stages before k succeed and stage k fails, the run ends with stage k's state and error and no later stage runs |
| MainGo.RunSucceedsIff | main.go:165-172 | the run ends without error exactly when every stage, on the state its predecessors left, returns no error |
| MainGo.TwoQuietStages | main.go:165-172 | when the first two of three stages report no error, the run's outcome is the third stage's |
| MainGo.MissingCredentialsStopEarly | main.go:197-203 | without token and webhook the run stops at validate: no message is built, no request is sent and nothing is exported |
| MainGo.CredentialsLeadToPost | main.go:197-203 | with a credential, the message is built from the validated config, exactly one request is sent, RequestOf of that config and message (URL, headers, payload), and the run's error and exports are those of posting it |
| SlackClient.TargetUrl | lib/slack/client.go:31-34 | chat.postMessage when IsWebhook is false, the trimmed selected webhook otherwise |
| SlackClient.RequestOf | lib/slack/client.go:31-41 | a POST of the encoded message to TargetUrl, whose headers are exactly Headers of the token (content type, then `Bearer <token>` when a token is set), independent of webhook use |
| SlackClient.ParseMessageResponse | lib/slack/client.go:79-99 | no output requested: zero response and no error, even over a webhook; requested over a webhook: an error; otherwise the decoded response, or an error with the zero response |
| SlackClient.IsWebhook | lib/slack/client.go:74-76 | a webhook is in use exactly when the selected URL is not all white space |
| SlackClient.IsRequestingOutput | lib/slack/client.go:102-104 | an output is requested exactly when the output variable name is set |
| SlackClient.ReplyError | lib/slack/client.go:56-69 | a non-200 status is a server error with the zero response, whatever the body |
| SlackClient.PostResult | lib/slack/client.go:45-72 | a transport failure is reported as a send failure; a non-200 reply gives ReplyError's server error |
| SlackClient.Post | lib/slack/client.go:21-72 | the request is RequestOf, and the response and error are PostResult |
| SlackClient.NoOutputRequested | lib/slack/client.go:82-85 | a 200 reply with no output requested succeeds with the zero response unless closing the body fails |
| SlackClient.OutputOverWebhookFails | lib/slack/client.go:88-90 | a 200 reply with an output requested over a webhook fails with the wrapped webhook error |
| SlackClient.OutputDelivered | lib/slack/client.go:66-71 | with an output requested, Post succeeds exactly when the reply is a 200 whose body decodes, no webhook is used and the body closes cleanly; the response is then the decoded one |
| Outputs.ExportOutputs | outputs.go:21-58 | at most one export; not requested: nothing and no error; a webhook: error, nothing exported; an export carries the configured name and the decoded ts; with an output requested, no error means an export was made |
| Outputs.ExportIff | outputs.go:23-54 | the export happens exactly when an output is requested, no webhook is configured and the body reads and decodes |
| Outputs.ExportErrors | outputs.go:35-46 | an unreadable body gives the read error and a body that does not decode the parse error, with nothing exported |
| Outputs.IsRequestingOutput | outputs.go:61-63 | an output is requested exactly when the output variable name is set |
| Outputs.EnvmanErrorPassedOn | outputs.go:48-54 | the envman error is returned unchanged after the one export attempt |
| Outputs.OnlyTimestampMatters | outputs.go:15-18 | two bodies that decode to the same response give the same outcome; since the response type has the single member ts, only the decoded ts matters |
| StepGo.Getenv | step.go:27 | the value of the variable, "" when it is not set |
| StepGo.Chosen | step.go:43-80 | in failed mode a non-empty on-error value wins, otherwise the primary value when not empty; a chosen value is never empty |
| StepGo.Params | step.go:24-84 | never both an icon URL and an emoji; the channel is set exactly when its variable is; the text is message or message_on_error |
| StepGo.ParamsJson | step.go:12-21 | every member is encoded, text as a string and an unset optional member as null |
| StepGo.ParamsRoundTrip | step.go:89-95 | the encoded payload reads back to the same parameters |
| StepGo.CreatePayloadParam | step.go:24-96 | the member-by-member construction encodes Params, and the error is always nil |
| StepGo.TextRule | step.go:27-36 | the text is message_on_error in failed mode when that is set, message otherwise |
| StepGo.IsBuildFailedMode | step.go:104 | failed mode unless the status variable is set to exactly "0"; an unset status is failed mode |
| StepGo.UnsetStatusSendsOnError | step.go:104-108 | with no status set, a set message_on_error is the text of the payload main builds |
| StepGo.SuccessIgnoresOnError | step.go:29-80 | in success mode two environments that differ only in the on-error variables give the same parameters |
| StepGo.IconUrlDropsEmoji | step.go:81-84 | a set icon URL drops the emoji; without one the emoji is chosen like the other members |
| StepGo.PayloadShape | step.go:15-20 | the payload always has text, the channel as a string exactly when it is set and null otherwise, and never both icon members as strings |

## Left out

- HTTP traffic is not modelled: building the `http.Request`, `client.Do`, `http.PostForm` and reading or closing bodies. Their outcomes are inputs. A failure of `http.NewRequest` is not modelled; in both posting functions it would leave a nil request behind.
- The envman process (`exportEnvVariable` in outputs.go and lib/slack/response.go) is a collaborator whose error text is an input.
- JSON bytes are not modelled: string escaping and member order come from `encoding/json`. The model keeps which members are present and their values. The marshal error branches cannot be taken for these types and are not modelled.
- outputs.go decodes the whole body with `json.Unmarshal`, while lib/slack/client.go uses a streaming decoder that stops after the first value. Both read the body's decode outcome from the same input.
- `parseConfig` (stepconf), `enableDebugLog`, the loggers, the console output of step.go, and `os.Exit` with the final messages are not modelled. The stage pipeline starts after the config is read.
- `MainGo.Validate` returns the validated config instead of writing it through a pointer. The stages likewise pass the session (config, message, exports, requests sent) from one to the next instead of sharing captured variables.
- Go's `int` is 64 bits wide. The clock value is an unbounded `int`; Unix seconds fit either way.
- The Message, Attachment, Field and Button types of lib/slack are not part of this model. The model uses message.go's, whose fields the lib/slack code sets identically.
- config.go's `Config`, the older configuration type, is not part of this model. outputs.go takes a lowercase `*config` whose declaration is not part of this model; it reads its `WebhookURL` and `ThreadTsOutputVariableName` members, which `Outputs.OutputsConfig` holds.
- The `main` function of step.go is modelled only through `StepGo.IsBuildFailedMode` and `StepGo.UnsetStatusSendsOnError`.
- Go strings are byte sequences, while Dafny strings are sequences of Unicode scalar values. Input that is not valid UTF-8 cannot be represented, so how `len`, `strings.TrimSpace` and the JSON encoder treat such bytes is not modelled.
- `Exchange.Body.decoded` is all or nothing: a decode either yields a whole `SendMessageResponse` or an error. Go's `json.Unmarshal` can return an error after filling part of the response (a duplicate `ts` member whose second value has the wrong type, say); that partly filled value is not modelled. outputs.go returns after such an error without reading it.
- SlackClient.ParseMessageResponse: returns the zero response next to a parse error. lib/slack/client.go:92-96 returns whatever the decoder filled in before failing. This follows from the all-or-nothing decode above.
