# supportbrain-teams-adapter: the turn-processing pipeline in Dafny

The adapter is a Bot Framework bot that relays chat questions to the SupportBrain worker. For each
`POST /api/messages`, the Bot Framework adapter authenticates the request and runs a turn handler
on the activity. The handler ignores every activity that is not a message with non-blank text. For
the rest it posts the trimmed text once to `<SUPPORTBRAIN_WORKER_URL>/ask` (`askSupportBrain`) and
sends the answer back into the conversation. An error thrown during the turn reaches
`adapter.onTurnError`, which tries once to send the apology "Er ging iets mis. Probeer het nog eens."
and swallows any failure of that send.

The model has five modules:

- `Wrappers`: `Option` for JavaScript's missing values and `Result` for thrown errors.
- `JsString`: `String.prototype.trim` over the exact ECMAScript whitespace and line-terminator code
  points.
- `Decimal`: the decimal text of the status in the worker error message, and its parser.
- `Relay`: base-URL normalisation (`replace(/\/+$/, "")`) and the interpretation of the worker's
  response (`!res.ok` throws; `data?.answer || "Geen antwoord gevonden."`). The class `Worker`
  records every `fetch` call made towards the worker. The method `AskSupportBrain` is proved against the
  function `InterpretResponse`.
- `Turn`: the pure specifications `HandlerSpec` (the turn handler) and `RequestSpec` (the request
  with authentication and the error boundary). The class `Conversation` records every attempted
  reply and whether the channel accepted it. The methods `HandleTurn`, `OnTurnError` and
  `ProcessRequest` run the steps in order and are proved to append exactly what the specifications
  say to the two logs.

The outside world comes in as parameters:

- `AuthOutcome` is the adapter's authentication. It either rejects the request or yields the
  activity.
- `FetchOutcome` is what `fetch` delivers: the worker cannot be reached, or a response with a
  status, a body text and a parsed JSON body.
- `SendOutcome` is whether the channel accepted a `sendActivity`.
- The configured worker URL is an `Option<string>`.

`res.ok` is modelled as it is defined in the Fetch standard: the status is 200 to 299.

The error thrown by `askSupportBrain` leaves the handler, and `onTurnError` then tries to send the
apology, so a failed relay gets the apology and never an answer reply (`FailedRelaySendsOnlyApology`).

## Model

| member | source | states |
|---|---|---|
| `JsString.Trim` | server.js:118 | the trimmed text is no longer than the input and has no whitespace at either end; `TrimSlice` and `TrimUnique` pin down exactly which text it is |
| `JsString.TrimStartFacts` | server.js:118 | what trimming the start leaves is the longest suffix that does not start with whitespace; everything dropped is whitespace |
| `JsString.TrimEndFacts` | server.js:118 | what trimming the end leaves is the longest prefix that does not end with whitespace; everything dropped is whitespace |
| `JsString.TrimFacts` | server.js:118-119 | the trimmed text has no whitespace at either end, and it is empty exactly when the text is only whitespace |
| `JsString.TrimSlice` | server.js:118 | the trimmed text is the slice of the input between a whitespace-only start and a whitespace-only end |
| `JsString.TrimStartSkips` | server.js:118 | leading whitespace before a non-whitespace character is exactly what the start trim removes |
| `JsString.TrimEndSkips` | server.js:118 | trailing whitespace after a non-whitespace character is exactly what the end trim removes |
| `JsString.TrimUnique` | server.js:118 | trim is determined by its meaning: any text with no whitespace at its ends, surrounded by whitespace only, is what trim returns |
| `JsString.TrimIdempotent` | server.js:118 | trimming twice is trimming once |
| `Decimal.NatToString` | server.js:100 | the decimal text of the status is non-empty, digits only, without a leading zero |
| `Decimal.ParseNatToString` | server.js:100 | reading back the decimal text of a number gives the number |
| `Decimal.LeadingDigits` | server.js:100 | the leading digit run is all digits and is followed by the end or by a non-digit |
| `Relay.StripTrailingSlashes` | server.js:91 | the normalised URL is a prefix of the input, what is removed is only `/`, and the result does not end with `/` |
| `Relay.StripTrailingSlashesUnique` | server.js:91 | a string not ending in `/`, followed by only `/`, normalises to that string |
| `Relay.StripTrailingSlashesIdempotent` | server.js:91 | normalising twice is normalising once |
| `Relay.BaseUrl` | server.js:91 | the base URL does not end with `/`; it is a prefix of the configured URL with only `/` removed, and it is empty when no URL is configured |
| `Relay.AskUrl` | server.js:91-92 | the request URL is `<base>/ask`: the base before `/ask` is the configured URL with only a run of trailing `/` removed, it does not end with `/`, and it is empty when no URL is configured |
| `Relay.AskUrlUnset` | server.js:91-92 | with the URL unset or empty, the request URL is `/ask` |
| `Relay.AskUrlIgnoresTrailingSlashes` | server.js:91-92 | adding any number of `/` to the configured URL leaves the request URL unchanged |
| `Relay.WorkerErrorMessage` | server.js:98-100 | the thrown message starts with the fixed prefix and ends with the body text |
| `Relay.WorkerErrorMessageRoundTrip` | server.js:98-100 | the status and the body text can both be read back from the thrown message |
| `Relay.AnswerOrFallback` | server.js:104 | a non-empty answer is returned unchanged; a missing, null or empty answer gives exactly "Geen antwoord gevonden."; the result is never empty |
| `Relay.InterpretResponse` | server.js:92-104 | askSupportBrain's outcome for a reply: an answer exactly for an OK response whose JSON parses, never empty, and a worker error for every non-OK status; `InterpretResponseOutcomes` and `NonOkResponseFails` give the rest |
| `Relay.InterpretResponseOutcomes` | server.js:92-104 | an answer comes out exactly for an OK response whose JSON parses, and it is never empty; an unreachable worker and a JSON parse failure are errors |
| `Relay.NonOkResponseFails` | server.js:98-100 | a non-OK status gives no answer, only an error whose message carries that status and body text |
| `Relay.Worker.Post` | server.js:92-96 | one `fetch` call is recorded with its URL and question, and the network's reply is returned |
| `Relay.AskSupportBrain` | server.js:90-105 | exactly one `fetch` call, with the URL `<base>/ask` and the question, and the result is the answer or the thrown error as `InterpretResponse` defines it |
| `Turn.Question` | server.js:116-119 | a question exists only for a message activity, and it is non-empty with no whitespace at either end; `QuestionIsTrimmedText` gives the converse and the exact value |
| `Turn.QuestionIsTrimmedText` | server.js:116-119 | a question exists exactly for a message activity whose text is present and not only whitespace; it is that text trimmed, and never empty |
| `Turn.HandlerSpec` | server.js:115-123 | the handler makes at most one worker call and at most one reply; no call means no reply and no error; after a reply, the handler throws exactly when that reply was not delivered; for a question the worker answers, the one reply attempted is that answer, whatever the channel does with it |
| `Turn.RequestSpec` | server.js:82-124 | a rejected request has no effects; a request makes at most one worker call and at most two reply attempts, and none without a call |
| `Turn.RejectedRequestHasNoEffects` | server.js:115 | a request the authentication rejects makes no worker call and sends no reply |
| `Turn.NonMessageIsIgnored` | server.js:116 | an activity whose type is not "message" makes no worker call and sends no reply |
| `Turn.BlankMessageIsIgnored` | server.js:118-119 | a message whose text is missing, empty or only whitespace makes no worker call and sends no reply |
| `Turn.RelayCalledOnceForQuestions` | server.js:115-121 | at most one `fetch` call per request, and one exactly for an authenticated message with non-blank text; the call has the request URL `<base>/ask` and the trimmed text |
| `Turn.AnswerIsTheOnlyReply` | server.js:121-122 | when the worker answers and the channel accepts the send, the only reply is that answer |
| `Turn.FailedRelaySendsOnlyApology` | server.js:82-87 | when the relay fails, no answer reply is sent and the only reply attempted is the apology |
| `Turn.UndeliveredAnswerGetsApology` | server.js:82-122 | when the worker answers but the channel refuses the answer, the replies attempted are the undelivered answer followed by the apology |
| `Turn.EveryQuestionGetsAReply` | server.js:82-124 | every relayed question ends in a reply attempt: either the worker's answer, delivered, is the only reply, or the last reply attempted is the apology |
| `Turn.NonOkStatusRaisesWorkerError` | server.js:98-100 | a non-OK status leaves the handler with no reply sent, as an error whose message carries that status and body text |
| `Turn.ApologyExactlyAfterError` | server.js:82-87 | the request's replies are the handler's, plus exactly one apology attempt if and only if the handler threw; on the success path there is at most one reply, and it was delivered |
| `Turn.AtMostTwoReplies` | server.js:82-87 | a request attempts at most two replies; two only when the first is the worker's answer, which could not be delivered, and the second is the apology with its own outcome |
| `Turn.HelloScenario` | server.js:114-123 | the message "  hello  " with the worker answer "hi" makes one call asking "hello" and sends exactly the reply "hi" |
| `Turn.Conversation.SendActivity` | server.js:122 | one attempted reply is recorded with its outcome, and the send throws exactly when the channel refuses it |
| `Turn.HandleTurn` | server.js:115-123 | the handler appends exactly `HandlerSpec`'s worker calls and replies to the logs and throws exactly `HandlerSpec`'s error |
| `Turn.OnTurnError` | server.js:82-87 | the boundary attempts exactly one apology send; its failure is swallowed and nothing is thrown |
| `Turn.ProcessRequest` | server.js:114-124 | a request appends exactly `RequestSpec`'s worker calls and replies: nothing when rejected, otherwise the handler's effects followed by the boundary's apology when the handler threw |

## Left out

- Debug logging of the credentials and `secretFingerprint` (server.js:10-31): console output only, and the fingerprint comes from SHA-256 in Node's `crypto` library.
- `testBotFrameworkToken` (server.js:35-67): an OAuth 2.0 client-credentials grant (section 4.4 of RFC 6749) against Microsoft's token endpoint. Its result is only logged.
- The credential factory, `createBotFrameworkAuthenticationFromConfiguration` and `CloudAdapter` (server.js:71-80), including the authentication inside `adapter.process`: these are Bot Framework library internals. Authentication is the parameter `AuthOutcome`.
- HTTP response finalisation by `adapter.process` (status codes, at most one response per request): this happens in library code.
- The restify server, body parser, `/health` route and `listen` (server.js:107-131): HTTP plumbing. The health payload is a constant.
- `console.error` in `onTurnError`: logging only, so the error argument of `OnTurnError` is unused.
- `fetch` and JSON parsing internals: the response is the parameter `FetchOutcome`, which gives its status, its body text and its parsed body. The model does not require the text and the parsed body to agree. A failure of `res.text()` on a non-OK response is not modelled.
- Relay.JsonBody: `data?.answer` is modelled as an optional string. A non-string JSON value for `answer` is not modelled: a falsy one such as `0` would give the fallback, and a truthy one would be passed on to `sendActivity`.
- Turn.Activity: a `text` field that is present but not a string is not modelled. A falsy one (`0`, `false`) reads as `""` through `|| ""`; `.trim()` would throw on a truthy one.
- Strings: JavaScript strings are UTF-16 code units, while the model's strings are sequences of Unicode scalar values, so a lone surrogate cannot be represented. Every character `trim` removes is in the Basic Multilingual Plane, so trimming is unaffected.
- Relay.Worker.Post: `fetch` rejects a URL that is not absolute (such as `/ask` when no worker URL is configured) before sending anything. The model still records the call and leaves the outcome to `reply`, whose only faithful value there is `Unreachable`.
- Async scheduling and concurrency: one request is modelled as a sequence of steps, and requests share no mutable state.
