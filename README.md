# ljpx/web request dispatch, modelled in Dafny

`ljpx/web` is a small Go library for JSON HTTP services. A `HandlerBuilder`
collects `Route`s, each with a method, a path, middleware and a handler. It
groups them by purified path and builds an `http.Handler`. A path answers
only the methods registered for it (405 otherwise). An unknown path answers
404. A panic before the response is committed becomes a 500 problem
envelope. Every request is logged with its status code, duration, body size
and path. Each request runs against a `Context`, which carries the
correlation id, the middleware artifacts and the assertion helpers
(content type, content length, method, JSON body). The context writes
through a `MeasuredResponseWriter`, which records the first status code, the
body volume and the start time.

The project has one module per concern:

- `wrappers.dfy` (`Wrappers`): `Option` and `Result`.
- `text.dfy` (`Text`): the Go string helpers the core uses (`strings.TrimSpace`, ASCII `ToUpper`, backslash replacement), decimal rendering and parsing, UTF-8 length.
- `http.dfy` (`Http`): the request and the wrapped `http.ResponseWriter` as a value (`Wire`) and as a class (`ResponseSink`).
- `measured.dfy` (`Measured`): the `MeasuredResponseWriter`.
- `units.dfy` (`Units`): `ByteSizeToFriendlyString`.
- `problems.dfy` (`Problems`): the problem-details envelopes.
- `context.dfy` (`Contexts`): `Context`.
- `routes.dfy` (`Routes`): routes, middleware and the per-route chain.
- `builder.dfy` (`Builder`): `HandlerBuilder`, dispatch by method, panic recovery and the request log.

Every class is proved against a pure effect function on a value state.
`MeasuredResponseWriter` is proved against `Meter`, `Context` against
`CtxState`, and `HandlerBuilder` against `BuilderState`. Each method's
`ensures` ties its new state to that function of the old state, and the
properties are lemmas about the functions.

A middleware's or route's `Handle` is arbitrary Go code. Here it is a
function of the request and the current artifacts that yields a script: the
context operations it performs and how it finishes (returning a boolean, or
panicking with a message). Several things become inputs:

- JSON encoding, JSON decoding with `Purify`, and dependency resolution are oracles passed in.
- The correlation id, the clock readings and the path matched by the router are parameters.

Where the described policy and the code differ, the model follows the code:

- `AssertContentLength` tests "too large" before "missing". With a negative maximum, an empty body therefore gets 413, not 411 (`Contexts.NegativeMaximumReportsEmptyBodyAsTooLarge`).
- The request log prints the raw recorded status code, not `StatusCode()`. A handler that writes a body without calling `WriteHeader` is logged with status 0, although the client sees 200 (`Builder.LogShowsRawStatus`).

There is one exception to following the code: the hand-written envelope sent when a response cannot be encoded. Context.go:320 splices the error text into it without escaping. The model states that envelope as written (`Problems.SerializationErrorJsonAsWritten`) and proves the defect (see Findings). `RespondWithJSON` sends the corrected, escaped envelope instead. The two agree on every error text with nothing to escape (`Contexts.SerializeAgreesWithSourceOnPlainErrors`), and "## Left out" lists the members this affects.

## Model

| member | source | states |
|---|---|---|
| Text.TrimSpace | Context.go:167 | `TrimSpace` yields a contiguous slice of its input, starting where the leading white space ends, that neither starts nor ends with white space |
| Text.TrimLeftSpace | Context.go:167 | the left trim is a suffix of the input that does not start with white space |
| Text.TrimRightSpace | Context.go:167 | the right trim is a prefix of the input that does not end with white space |
| Text.TrimLeftSpaceCutsOnlySpace | Context.go:167 | everything the left trim drops is white space |
| Text.TrimRightSpaceCutsOnlySpace | Context.go:167 | everything the right trim drops is white space |
| Text.TrimSpaceCutsOnlySpace | Context.go:167 | everything before and after the slice `TrimSpace` keeps is white space, so together with `Text.TrimSpace` it removes exactly the surrounding white space |
| Text.TrimSpaceIdempotent | HandlerBuilder.go:126 | trimming an already trimmed string changes nothing |
| Text.TrimSpaceKeepsCharacters | HandlerBuilder.go:126 | every character of the trimmed string occurs in the input |
| Text.ToUpperIdempotent | Context.go:204 | upper-casing twice is upper-casing once |
| Text.SlashBackslashes | HandlerBuilder.go:126 | replacing `\` by `/` keeps the length and leaves no backslash |
| Text.SlashBackslashesNoop | HandlerBuilder.go:126 | a string without backslashes is unchanged |
| Text.ParseNatToString | Context.go:133 | the decimal `Content-Length` text reads back as the body length |
| Http.WireWriteHeader | MeasuredResponseWriter.go:51 | the wrapped writer logs every `WriteHeader` call; only the first fixes status and headers sent; body untouched |
| Http.WireWrite | MeasuredResponseWriter.go:38 | a write accepts all bytes or fills the remaining room, appends exactly the accepted prefix, and an uncommitted response commits with 200 |
| Measured.Fresh | MeasuredResponseWriter.go:21-26 | a new writer records status 0, volume 0, no header written, and wraps the given writer unchanged |
| Measured.MeasuredResponseWriter.constructor | MeasuredResponseWriter.go:21-26 | the constructed writer's state is `Fresh` of the wrapped writer and its start time is the clock reading |
| Measured.MeterSetHeader | MeasuredResponseWriter.go:31-33 | setting a header goes to the wrapped writer's header map and changes nothing the writer records |
| Measured.MeasuredResponseWriter.SetHeader | MeasuredResponseWriter.go:31-33 | the new state is `MeterSetHeader` of the old |
| Measured.MeterWrite | MeasuredResponseWriter.go:37-42 | the write is forwarded, the volume grows by exactly the count the wrapped writer reports, status and header flag untouched |
| Measured.MeasuredResponseWriter.Write | MeasuredResponseWriter.go:37-42 | new state and returned count are `MeterWrite` of the old state |
| Measured.MeterWriteHeader | MeasuredResponseWriter.go:45-53 | once headers are written every further call changes nothing; the first call records the code, forwards it and sets the flag |
| Measured.MeasuredResponseWriter.WriteHeader | MeasuredResponseWriter.go:45-53 | the new state is `MeterWriteHeader` of the old |
| Measured.ReportedStatus | MeasuredResponseWriter.go:58-64 | the reported status is never 0: the recorded code, or 200 when none was recorded |
| Measured.MeasuredResponseWriter.StatusCode | MeasuredResponseWriter.go:58-64 | the result is `ReportedStatus` of the recorded code: that code when one was recorded, 200 when none was, never 0 |
| Measured.FloorDuration | MeasuredResponseWriter.go:72-80 | an elapsed time under 5 ms reports 0, anything else is reported exactly |
| Measured.MeasuredResponseWriter.Duration | MeasuredResponseWriter.go:72-80 | the result is `FloorDuration` of the time since the start: 0 exactly when that is under 5 ms, otherwise that time |
| Measured.FloorDurationMonotone | MeasuredResponseWriter.go:72-80 | a longer elapsed time never reports a shorter duration |
| Measured.TracksApply | MeasuredResponseWriter.go:37-53 | every call keeps the invariant: the wrapped writer saw exactly the recorded code, once, iff headers were written, and the volume equals the body bytes added |
| Measured.ReplayTracks | MeasuredResponseWriter.go:37-53 | the invariant holds after any sequence of calls |
| Measured.ReplayRecordsFirstCode | MeasuredResponseWriter.go:45-53 | after any calls, headers are written iff some `WriteHeader` was called, the recorded code is the first one passed, and the volume counts every accepted byte |
| Measured.FreshWriterAfterCalls | MeasuredResponseWriter_test.go:55-98 | from a fresh writer: `HasWrittenHeaders` iff `WriteHeader` was called, `StatusCode` is the first code or 200, one forwarded `WriteHeader` at most, volume is the body length |
| Units.UnitIndex | util.go:18-21 | the chosen unit k is below 5; for k > 0 the size is at least 1024^k, and below 1024^(k+1) unless the unit is TB |
| Units.UnitIndexUnique | util.go:18-21 | any unit meeting those bounds is the one the loop chooses |
| Units.BytesIffUnder1024 | util.go:18 | the size is shown in B exactly when it is below 1024 |
| Units.UnitIndexMonotone | util.go:18-21 | a larger size never gets a smaller unit |
| Units.ScaledInRange | util.go:18-21 | the scaled value is below 1024 unless the unit is TB, and at least 1 unless the unit is B |
| Units.RoundHalfEven | util.go:23 | `%.2f` rounding lands within half a unit and breaks exact ties to the even neighbour |
| Units.ByteSizeToFriendlyString | util.go:12-24 | the loop's repeated division gives exactly `FriendlySize`, the value at 1024^k printed with two decimals and the unit |
| Units.FriendlySizeOne | util_test.go:15 | 1 byte is "1.00 B" |
| Units.FriendlySize1023 | util_test.go:16 | 1023 bytes is "1023.00 B" |
| Units.FriendlySize1024 | util_test.go:17 | 1024 bytes is "1.00 kB" |
| Units.FriendlySize1536 | util_test.go:18 | 1536 bytes is "1.50 kB" |
| Units.FriendlySizeMegabyte | util_test.go:19 | 1048576 bytes is "1.00 MB" |
| Units.FriendlySizeGigabytes | util_test.go:20 | 3214822145 bytes is "2.99 GB" |
| Units.FriendlySize160 | HandlerBuilder_test.go:55 | a 160-byte body is logged as "160.00 B" |
| Problems.Diagnostic | Context.go:308-310 | an error is attached iff debugging is on and there is an error, and then it is that error |
| Problems.NoDiagnosticsWithoutDebugging | Context.go:263-324 | with debugging off, deserialization, internal-error and serialization-error envelopes carry no error and do not depend on the error text |
| Problems.DiagnosticsWhenDebugging | Context.go:263-324 | with debugging on, the encoded envelopes carry the error text; the hand-written serialization envelope ends with it spliced raw as written, and escaped once corrected |
| Problems.SpecificsEchoInputs | Context.go:218-261 | 415, 413 and 405 envelopes echo the offending value and the allowed values or maximum |
| Problems.NotFoundDetailQuotesSubject | Context.go:289-299 | the 404 detail contains the subject verbatim between single quotes |
| Problems.JsonEscapeValid | Context.go:315-324 | escaping any text yields a valid JSON string body |
| Problems.JsonEscapePlain | Context.go:315-324 | text with nothing to escape is unchanged by escaping |
| Problems.RawErrorTextBreaksEnvelope | Context.go:315-324 | the as-written envelope splices the raw error text; a quote before any backslash makes the `error` member's text an invalid JSON string |
| Problems.AsWrittenErrorMember | Context.go:320 | the as-written `error` member is the raw text between quotes |
| Problems.RawErrorTextExample | Context.go:320 | `bad "name"` is not a valid JSON string body |
| Problems.SerializationErrorMemberIsJsonString | Context.go:315-324 | the corrected envelope's `error` member is the escaped text, always a valid JSON string |
| Problems.SerializationErrorJsonAgreesOnPlainText | Context.go:315-324 | on text with nothing to escape the corrected and as-written envelopes agree |
| Contexts.RespondEffect | Context.go:118-121 | after `Respond` the correlation id is set in the header map, headers are written, an earlier recorded status is kept, and volume and body are untouched |
| Contexts.RespondOnFreshWriter | Context.go:118-121 | on an uncommitted writer `Respond` records `code`, calls the wrapped `WriteHeader` once with it, and sends that status with the correlation id among the headers |
| Contexts.SerializeAgreesWithSourceOnPlainErrors | Context.go:125-130 | an encoded payload is sent with its code; an encoding failure is sent as 500, byte for byte the envelope Context.go writes whenever the error text has nothing JSON must escape |
| Contexts.RespondWithJsonEffect | Context.go:125-136 | after `RespondWithJSON` headers are written, and an earlier recorded status is kept |
| Contexts.RespondWithJsonOnFreshWriter | Context.go:125-136 | on an uncommitted writer: status is the code, or 500 with the (corrected) serialization envelope when encoding fails; JSON content type, correlation id and a `Content-Length` that parses to the body length are sent; the body is appended when it fits |
| Contexts.RespondWithJsonAfterCommit | Context.go:125-136 | once committed, a later response changes neither the recorded status nor the sent status and headers, and adds no `WriteHeader` |
| Contexts.Perform | Context.go:165-216 | an assertion returns true iff its verdict passes, and a passing assertion writes nothing |
| Contexts.ContentTypeVerdict | Context.go:165-179 | a content-type rejection is always 415 |
| Contexts.ContentLengthVerdict | Context.go:183-199 | a content-length rejection is 413 or 411 |
| Contexts.BodyVerdict | Context.go:99-114 | a body rejection is 400 (decode) or 422 (purify); `Contexts.BodyOutcome` gives which and the envelope |
| Contexts.BodyOutcome | Context.go:99-114 | a body the decoder refuses gets 400 with the deserialization envelope for the decoder's error; a decoded model `Purify` refuses gets 422 with the envelope naming the field and error; the stages pass iff both succeed |
| Contexts.CheckContentLengthVerdicts | Context.go:183-199 | accepted iff 0 < length <= max; 413 iff length > max; 411 iff length <= 0 and not above max |
| Contexts.NegativeMaximumReportsEmptyBodyAsTooLarge | Context.go:186-196 | with a negative maximum an empty body is reported as too large |
| Contexts.ContentTypeOutcome | Context.go:165-179 | passes iff the trimmed upper-cased header equals some upper-cased allowed type; otherwise 415 with the envelope naming the header and the allowed list |
| Contexts.ContentLengthOutcome | Context.go:183-199 | passes iff 0 < length <= max; otherwise the 413 or 411 envelope |
| Contexts.MethodOutcome | Context.go:203-216 | passes iff the method matches an allowed one ignoring case; otherwise 405 with the envelope naming both |
| Contexts.MatchContentType | Context.go:166-173 | the loop finds a match iff the trimmed, upper-cased content type equals some upper-cased allowed entry |
| Contexts.ContentTypeMatchIgnoresCaseAndPadding | Context.go:166-171 | white space around the header and its letter case do not change acceptance |
| Contexts.AllowedContentTypesAreNotTrimmed | Context.go:170 | an allowed type that starts or ends with white space never matches, whatever the header, because only the header is trimmed |
| Contexts.MethodMatchIgnoresCase | Context.go:204-209 | upper-casing the method does not change acceptance, and a listed method is accepted |
| Contexts.FromJsonAcceptance | Context.go:90-115 | `FromJSON` succeeds iff the content type is JSON, 0 < length <= the configured limit, the body decodes and `Purify` reports no field |
| Contexts.FromJsonStopsAtHeaderFailure | Context.go:90-97 | `FromJSON` checks the content type before the length and stops at the first failure: 415 with the raw header, else 413 with length and limit, else 411 |
| Contexts.FromJsonStopsAtBodyFailure | Context.go:99-114 | once type and length pass, `FromJSON` answers a decode failure with 400 and the decoder's error, and a `Purify` failure with 422 and the field |
| Contexts.GetArtifact | Context.go:47-50 | an artifact is found iff it was set |
| Contexts.ArtifactSetThenGet | Context.go:36-55 | the artifact map starts empty; setting a name then getting it returns the value and leaves other names alone |
| Contexts.Context.constructor | Context.go:28-38 | a new context has the request, configuration and correlation id it was given and no artifacts |
| Contexts.Context.GetMiddlewareArtifact | Context.go:47-50 | returns the artifact stored under the name, if any |
| Contexts.Context.SetMiddlewareArtifact | Context.go:53-55 | the artifact map is updated at that name |
| Contexts.Context.Respond | Context.go:118-121 | the writer's new state is `RespondEffect` of the old |
| Contexts.Context.RespondWithJSON | Context.go:125-136 | the writer's new state is `RespondWithJsonEffect` of the old |
| Contexts.Context.NotFound | Context.go:139-142 | the writer's new state is the 404 envelope response |
| Contexts.Context.InternalServerError | Context.go:146-149 | the writer's new state is the 500 envelope response |
| Contexts.Context.Resolve | Context.go:153-161 | true iff the container resolves the dependencies, else a 500 response |
| Contexts.Context.AssertContentType | Context.go:165-179 | result and new writer state are those of the content-type verdict |
| Contexts.Context.AssertContentLength | Context.go:183-199 | result and new writer state are those of the content-length verdict |
| Contexts.Context.AssertMethod | Context.go:203-216 | result and new writer state are those of the method verdict |
| Contexts.Context.FromJSON | Context.go:90-115 | result and writer state are those of the staged verdict, and on success the model is the decoded body |
| Contexts.Context.DecodeBody | Context.go:99-114 | result and writer state are those of the decode-and-purify verdict, and on success the model is the decoded body |
| Routes.ActionEffect | Route.go:8 | only an assertion can stop a handler's script, and only setting an artifact changes the artifacts |
| Routes.ActionKeepsRecordedStatus | MeasuredResponseWriter.go:45-53 | once a status is recorded, no context operation changes it |
| Routes.ScriptKeepsRecordedStatus | MeasuredResponseWriter.go:45-53 | once a status is recorded, no handler script changes it |
| Routes.ScriptStopsOnlyAfterAnswering | Context.go:165-216 | a script that stops early has answered the request |
| Routes.ScriptWithoutArtifactsKeepsThem | Context.go:53-55 | a script that sets no artifact leaves the artifacts unchanged |
| Routes.ResponseOperationsStampCorrelationId | Context.go:118-121 | every operation that answers an uncommitted request sends the correlation id header |
| Routes.ChainStopsAtFirstRefusal | HandlerBuilder.go:112-123 | middleware run in order and stop at the first that refuses or panics; the handler runs iff every middleware let the request through; a panic is the last decision |
| Routes.ChainWithoutMiddleware | HandlerBuilder.go:112-123 | a route without middleware runs its handler directly |
| Routes.ChainKeepsRecordedStatus | HandlerBuilder.go:112-123 | once a status is recorded, the whole chain keeps it |
| Routes.CheckGuard | Context.go:90-216 | result and writer state are those of the assertion's verdict |
| Routes.RunAction | Route.go:8 | context and writer state and result are `ActionEffect` of the old state |
| Routes.RunScript | Middleware.go:6-8 | context and writer state and result are `ScriptEffect` of the old state |
| Routes.RunStep | Middleware.go:6-8 | context and writer state and exit are `StepEffect` of the old state |
| Routes.RunRoute | HandlerBuilder.go:112-123 | state, panic outcome and whether the handler ran are `ChainEffect` of the old state |
| Builder.PurifyPathIsClean | HandlerBuilder.go:125-127 | a purified path has no backslash, no surrounding white space, and purifying it again changes nothing |
| Builder.UseAppendsToItsPath | HandlerBuilder.go:38-43 | `Use` appends the route to its purified path's list and leaves every other path alone |
| Builder.BuildIsFinal | HandlerBuilder.go:46-71 | `Build` returns the router of the registered routes and marks the builder built; afterwards `Use` and `Build` panic with the documented message and change nothing |
| Builder.UseAllGroupsByPath | HandlerBuilder.go:38-43 | after registering a sequence of routes, each path holds exactly the routes whose purified path it is, in registration order |
| Builder.RoutesForNonEmpty | HandlerBuilder.go:41-42 | a path has routes iff some route purifies to it |
| Builder.TableOfMethods | HandlerBuilder.go:92-101 | the allowed methods are the routes' methods in order, with duplicates; the handler map's keys are those methods; the last route with a method wins |
| Builder.BuildHandlerForPath | HandlerBuilder.go:92-101 | the loop builds exactly `TableOf` of the routes |
| Builder.DisallowedMethodRunsNothing | HandlerBuilder.go:103-106 | a method outside the allowed list gets the 405 response and no route runs |
| Builder.RegisteredMethodRunsLastRoute | HandlerBuilder.go:103-109 | a registered method runs the chain of the last route registered for it |
| Builder.LowercaseMethodFindsNoHandler | HandlerBuilder.go:104-108 | a lower-case method passes the case-insensitive check but the case-sensitive lookup finds no handler, which panics |
| Builder.Dispatch | HandlerBuilder.go:103-109 | state and outcome are `DispatchEffect` of the old state |
| Builder.RunHandler | HandlerBuilder.go:53-62 | state and outcome are those of the path's handler or the catch-all |
| Builder.HandleAndRecover | HandlerBuilder.go:78-88 | the writer ends as the handler left it, followed by the recovery step on its outcome |
| Builder.PanicBeforeAnswerIs500 | HandlerBuilder.go:78-83 | a panic before any response gives a 500 on the wire and in the log |
| Builder.PanicAfterAnswerIsSwallowed | HandlerBuilder.go:78-83 | a panic after the response was written leaves the wire as the handler left it |
| Builder.UnmatchedPathIsNotFound | HandlerBuilder.go:58-62 | an unmatched path gets 404 on the wire and in the log |
| Builder.LogShowsRawStatus | HandlerBuilder.go:84 | a handler that only writes a body sends 200 but is logged with status 0 |
| Builder.LogMatchesWire | HandlerBuilder.go:84-85 | the log line's size is the body bytes sent, its path the request path, its duration the floored elapsed time; a nonzero logged status is exactly the one `WriteHeader` the client's writer received |
| Builder.TracksServe | HandlerBuilder.go:75-88 | from a fresh writer, any handler leaves the writer invariant holding |
| Builder.Logger.Printf | HandlerBuilder.go:85 | one entry is appended to the log |
| Builder.LogRequest | HandlerBuilder.go:84-85 | the logged entry is the raw status, floored duration, friendly size of the volume and the path |
| Builder.RecoverPanic | HandlerBuilder.go:78-83 | the writer's new state is `Recover` of the old |
| Builder.ServeRequest | HandlerBuilder.go:73-90 | the client's writer and the log end as `ServeEffect` says |
| Builder.HandlerBuilder.constructor | HandlerBuilder.go:27-35 | a new builder has no routes and is not built |
| Builder.HandlerBuilder.Use | HandlerBuilder.go:38-43 | new state and outcome are `UseEffect` of the old state |
| Builder.HandlerBuilder.Build | HandlerBuilder.go:46-65 | new state, outcome and router are `BuildEffect` of the old state |

## Left out

- JSON encoding (`json.Marshal`), decoding (`json.Decoder`) and `Purify` are oracles passed in. Their byte formats are not modelled.
- Path matching by the router is not modelled. The path the router matched, if any, is an input to `Builder.Lookup`.
- Dependency injection (`Fork`, `Resolve`) is an oracle. It gives the error text or nothing, and the fork's isolation is not modelled.
- The correlation id (`id.New`) and the clock (`time.Now`) are parameters.
- Go's `float64` arithmetic in `%.2f` is modelled on exact reals. Sizes large enough for binary rounding to matter are not distinguished.
- `ToUpper` is modelled on ASCII letters only.
- The log line's exact bytes (the bullet, the `time.Duration` text, the newline) are left out. The log is a sequence of `LogEntry` records holding the values printed.
- `int64` overflow of the volume and `Content-Length` is not modelled; integers are unbounded.
- `http.ResponseWriter.WriteHeader`'s own panic on an invalid code (below 100 or above 999) is not modelled.
- `GetPathParameter` and `GetQueryParameter` read router and URL internals, so they are left out. `UnmarshalFromResponse` is a test helper, also left out.
- The plain accessors (`GetCorrelationID`, `ResponseWriter`, `Request`, `Container`, `Volume`, `HasWrittenHeaders`) are fields of the model and have no rows.
- Handlers are scripts of context operations computed from the request and artifacts. A handler cannot branch on the result of an operation, other than stopping at a failed assertion.
- Concurrency is not modelled: the builder is documented as not thread-safe, and each request is one sequential run.
- A panic with a `nil` value, which `recover` cannot tell apart from no panic, is not modelled. Every panic carries a message.
- Contexts.Serialize: when encoding fails it sends the corrected serialization envelope, with the error text escaped, not the raw splice of Context.go:320 (see Findings). The two differ only when debugging is on and the error text holds a quote, a backslash or a control character; `Contexts.SerializeAgreesWithSourceOnPlainErrors` states that they agree otherwise.
- Contexts.RespondWithJsonEffect: for the same reason, after an encoding failure with debugging on it writes the corrected envelope, and a `Content-Length` of its length, where the source writes the raw splice.
- Contexts.RespondWithJsonOnFreshWriter: its bytes on an encoding failure are the corrected envelope, as above.
- Contexts.Context.RespondWithJSON: it performs `Contexts.RespondWithJsonEffect`, so the same gap applies.
- Builder.RunHandler, Builder.Dispatch and Builder.ServeRequest: the panic of a Go handler unwinds the stack; here the handler's script ends at the panic and the outcome carries its message.

## Findings

| source | as written | input that shows it | evidently intended | confidence | as-written member | corrected member |
|---|---|---|---|---|---|---|
| Context.go:320 | with debugging on, the serialization error text is spliced verbatim between quotes in the hand-written JSON envelope | debugging on and an encoding error whose text contains a quote, e.g. `bad "name"` | the `error` member is a JSON string, with the text escaped | not executed | Problems.RawErrorTextBreaksEnvelope | Problems.SerializationErrorMemberIsJsonString |
