# go-insight Go SDK: a Dafny model of its core

This project models the client half of the go-insight observability SDK. It covers:

- starting and finishing distributed traces and spans;
- keeping a trace carrier `{TraceID, SpanID}` in an immutable request context;
- building log entries and performance metrics;
- the `Instrument` wrapper;
- the per-request Gin and Echo adapters.

Everything the SDK sends is modelled as a `Request` recorded in the
client's `requests` field. The collector is a stub: the client's
`script` of replies answers the k-th request with `ReplyAt(script, k)`. Each reply is
either no reply at all or an HTTP status with a body. The body is either a JSON object,
with or without a string id, or not JSON.

Modules:

- `Wrappers`: `Option` and `Result`.
- `Models`: the record types of `goinsight/models.go`, the errors the SDK returns and
  their texts.
- `Collector`: the request and reply values, the transport's status and decode rule,
  the endpoint paths, and how a finish path's string reads back into an id.
- `Tracing`: `Context` values, `GetTraceFromContext`, and pure outcome functions for
  `StartTrace`, `StartSpan`, `FinishSpan` and `FinishTrace`. Each outcome function
  gives what the operation returns and the requests it sends. It also holds lemmas
  about chains of nested spans.
- `Telemetry`: the `Client` class and its `LogError` argument scan. The client's
  methods are proved equal to the outcome functions. The module also holds the
  `Instrument` protocol and its properties.
- `Middleware`: the Gin and Echo adapters over a `RequestScope` object (the
  framework's per-request state). The scheduler's order of the three background
  tasks is a parameter.

The model follows the code, including in these places where a caller might expect otherwise:

- `LogError` keeps the LAST error and the LAST map among its arguments, not the first
  (goinsight/client.go:69-76: the loop overwrites on every match).
- The carrier's context key is the plain string `"go-insight-trace"`, not a private key
  type (goinsight/tracing.go:36, 87). Any other code can read or overwrite it.
- A create reply without a string `id` makes the code panic at its type assertion
  (goinsight/tracing.go:19, 34, 61). Every other failure of `StartTrace` and `StartSpan`
  is returned as an error (goinsight/tracing.go:13-16, 29-32, 43-45, 54-57). The model
  returns the error `MissingId` on that path as well.
- The adapters drop the errors of their telemetry calls (goinsight/middleware.go:44, 64,
  70-71). Nothing logs them.

## Model

| member | source | states |
|---|---|---|
| Telemetry.EffectiveTimeout | goinsight/client.go:22-24 | a zero timeout becomes 5 seconds; any other timeout is kept |
| Telemetry.Client.New | goinsight/client.go:21-34 | the client copies key, endpoint and service name; its timeout is the effective one; nothing has been sent yet |
| Models.ErrorText | goinsight/client.go:155-179 | an application error's text is passed through unchanged; every SDK error has a non-empty text |
| Models.ErrorTextNamesKind | goinsight/client.go:155-179 | two SDK errors of different kinds ("no trace context found", send, status, decode, missing id) never have the same text |
| Collector.Transport | goinsight/client.go:148-184 | success iff there is a reply with status 200..299 and, when a response target is passed, a JSON body; an unreachable collector is a send error; a non-2xx status is a status error; a call without a target yields no content |
| Collector.UndecodedIgnoresBody | goinsight/client.go:173-181 | a call without a response target never looks at the body: only the status decides |
| Collector.Delivery | goinsight/client.go:144-146 | a call that expects no body fails iff the reply is missing or not 2xx, with the matching error |
| Collector.CreatedId | goinsight/client.go:124-134 | a create call yields an id iff the reply is 2xx, decodes and carries a string id; that id is the one returned; send and status errors pass through |
| Collector.ResponseId | goinsight/tracing.go:19 | `resp["id"].(string)` yields the id iff the decoded body has one; otherwise MissingId; the same assertion is made on the root span reply (goinsight/tracing.go:34) and on a child span reply (goinsight/tracing.go:61) |
| Collector.EndPathsRoundTrip | goinsight/client.go:136-142 | as strings, `/spans/{id}/end` and `/traces/{id}/end` read back as exactly their id; a span end never reads as a trace end or the reverse; no create or emit path reads as either. The id is not escaped, so this is what the collector's router sees only for ids without URL-special characters |
| Collector.EndSpanTarget | goinsight/client.go:136-138 | a path that reads as a span end is exactly the finish path of that id |
| Collector.EndTraceTarget | goinsight/client.go:140-142 | a path that reads as a trace end is exactly the finish path of that id |
| Collector.EndSpanRequest | goinsight/client.go:136-138 | endSpan posts, with no body, a path that names exactly the given span |
| Collector.EndTraceRequest | goinsight/client.go:140-142 | endTrace posts, with no body, a path that names exactly the given trace |
| Tracing.GetTraceFromContext | goinsight/tracing.go:86-91 | the innermost binding of the trace key decides: a carrier there is found, and any other value there hides outer carriers; a carrier found is one bound along the chain; a context with none bound has none |
| Tracing.Attach | goinsight/tracing.go:36 | the derived context's carrier is the one attached, and its parent is the old context, which is unchanged |
| Tracing.ForeignBindingTransparent | goinsight/tracing.go:86-91 | a binding under another key does not hide the parent's carrier |
| Tracing.StartTraceOutcome | goinsight/tracing.go:8-39 | trace creation fails: original context, nil carrier, the error, no span request; trace created: the root span request carries that trace id, this service and the operation, with no parent; root span fails: original context, a carrier with the trace id and an empty span id, and the error; both created: no error, and the new context's carrier is the returned `{trace id, root span id}` |
| Tracing.StartSpanOutcome | goinsight/tracing.go:41-66 | no carrier: same context, "no trace context found", nothing sent; otherwise exactly one span request with the same trace id and the current span as parent; on failure the original context; on success a context over the old one whose carrier is `{same trace id, new span id}` |
| Tracing.FinishSpanRequests | goinsight/tracing.go:68-75 | nothing is sent iff there is no carrier; otherwise exactly the end request of the current span |
| Tracing.FinishTraceRequests | goinsight/tracing.go:77-84 | nothing is sent iff there is no carrier; otherwise exactly the end request of the trace |
| Tracing.FinishSpanOutcome | goinsight/tracing.go:68-75 | "no trace context found" without a carrier; otherwise the delivery error of the end request |
| Tracing.FinishTraceOutcome | goinsight/tracing.go:77-84 | "no trace context found" without a carrier; otherwise the delivery error of the end request |
| Tracing.Nest | goinsight/tracing.go:41-66 | a chain of nested StartSpan calls has one context per level plus the start, and one request per level under a carrier |
| Tracing.NestLevel | goinsight/tracing.go:47-65 | one level i of a chain under a carrier: same trace id, the parent of the request is level i's span, level i+1 carries the returned id or is level i again |
| Tracing.NestLinkage | goinsight/tracing.go:47-65 | along nested spans the trace id never changes; the request at level i names level i's span as parent; level i+1 carries the id the collector returned, or is level i again when creation failed |
| Tracing.FinishTargetsCreatedIds | goinsight/tracing.go:68-84 | finishing a nested context ends the span the collector created for that level; finishing the trace from any level ends the one trace |
| Tracing.NestUntraced | goinsight/tracing.go:42-45 | without a carrier, nested StartSpan calls send nothing and never change the context |
| Tracing.EndToEndScenario | goinsight/tracing.go:8-66 | with replies t1, s1, s2: the trace carrier is {t1, s1}; the child span is {t1, s2} with parent s1; a 500 on the root span leaves the context and gives carrier {t1, ""} |
| Telemetry.NewEntry | goinsight/client.go:37-50 | the entry has the client's service, the level, the message and the metadata; trace and span ids come from the carrier, or are empty without one |
| Telemetry.Client.Log | goinsight/client.go:37-53 | sends exactly that entry to /logs and returns the delivery error |
| Telemetry.Client.LogInfo | goinsight/client.go:56-62 | level INFO; only the first metadata map is used, or none when none is given |
| Telemetry.Client.LogWarn | goinsight/client.go:89-95 | level WARN; only the first metadata map is used |
| Telemetry.Client.LogDebug | goinsight/client.go:98-104 | level DEBUG; only the first metadata map is used |
| Telemetry.LastError | goinsight/client.go:69-76 | the scan finds no error iff no argument is an error |
| Telemetry.LastMap | goinsight/client.go:69-76 | with no map among the arguments the scan's map is nil |
| Telemetry.LastErrorWins | goinsight/client.go:69-76 | the last error argument wins, whatever comes after it that is not an error |
| Telemetry.LastMapWins | goinsight/client.go:69-76 | the last map argument wins, nil maps included |
| Telemetry.SwapDifferentKinds | goinsight/client.go:69-76 | swapping two neighbouring arguments that are not both errors or both maps changes neither result; with one error and one map, their order does not matter |
| Telemetry.IgnoredArgument | goinsight/client.go:69-76 | an untyped nil or another value changes neither result, wherever it is |
| Telemetry.ScanErrAndMetadata | goinsight/client.go:66-76 | the loop over the arguments yields the last error and the last map |
| Telemetry.WithError | goinsight/client.go:81-83 | with an error, "error" is added (or replaced) with its text; other keys keep their values; without an error the map is unchanged |
| Telemetry.Client.LogError | goinsight/client.go:65-86 | sends at level ERROR a non-nil map: the winning map, or an empty one, with the error text added; the caller's map itself gets the "error" key; only that map changes |
| Telemetry.WithServiceName | goinsight/client.go:107-110 | an empty service name becomes the client's; a non-empty one is kept; no other field changes |
| Telemetry.Client.SendMetric | goinsight/client.go:107-121 | posts exactly that metric to /metrics and returns the delivery error |
| Telemetry.Client.Exchange | goinsight/client.go:167 | `c.client.Do(req)` against the stub: the request is appended to those sent, and the reply is the script's next one |
| Telemetry.Client.SendRequestWithResponse | goinsight/client.go:148-184 | one request is recorded, and its outcome is the transport rule applied to the reply it gets |
| Telemetry.Client.SendRequest | goinsight/client.go:144-146 | one request without a response target; its error is the delivery error |
| Telemetry.Client.SendLog | goinsight/client.go:116-118 | posts the entry to /logs |
| Telemetry.Client.PostMetric | goinsight/client.go:120-122 | posts the metric to /metrics |
| Telemetry.Client.SendTrace | goinsight/client.go:124-128 | posts the trace to /traces and decodes the reply |
| Telemetry.Client.SendSpan | goinsight/client.go:130-134 | posts the span to /spans and decodes the reply |
| Telemetry.Client.EndSpan | goinsight/client.go:136-138 | posts the span's end path |
| Telemetry.Client.EndTrace | goinsight/client.go:140-142 | posts the trace's end path |
| Telemetry.Client.StartTrace | goinsight/tracing.go:8-39 | returns and sends exactly what StartTraceOutcome says, with the carrier's span id filled in after the root span is created |
| Telemetry.Client.StartSpan | goinsight/tracing.go:41-66 | returns and sends exactly what StartSpanOutcome says |
| Telemetry.Client.FinishSpan | goinsight/tracing.go:68-75 | returns and sends exactly what FinishSpanOutcome says |
| Telemetry.Client.FinishTrace | goinsight/tracing.go:77-84 | returns and sends exactly what FinishTraceOutcome says |
| Telemetry.DurationMs | goinsight/client.go:215 | `duration.Milliseconds()` truncates: the result in ms times 10^6 is at most the elapsed nanoseconds, and one more ms is past them |
| Telemetry.CompletionEntry | goinsight/client.go:211-222 | the completion log is ERROR with "Operation failed: op" and the error under "error" when fn failed; otherwise INFO with "Operation completed: op"; both carry the operation and duration_ms, on the span context |
| Telemetry.FinishFailureLog | goinsight/client.go:197-204 | a log is sent iff finishing failed: "Failed to finish span" at ERROR with the operation and the error |
| Telemetry.InstrumentOutcome | goinsight/client.go:187-226 | fn's error is returned unchanged; fn runs on the new span context, or on the original context when StartSpan failed |
| Telemetry.InstrumentLogsOnce | goinsight/client.go:211-224 | exactly one completion log is sent, whether or not a span was started; ERROR iff fn failed; it carries the operation and the duration |
| Telemetry.Client.LogCompletion | goinsight/client.go:211-222 | sends exactly the completion entry |
| Telemetry.Client.FinishDeferred | goinsight/client.go:197-204 | FinishSpan on the span context, then the failure log iff it failed |
| Telemetry.AfterRun | goinsight/client.go:197-222 | after fn: the completion log first; without a carrier the "Failed to finish span" ERROR log always follows; with one, the end of its span, then iff that request failed the "Failed to finish span" ERROR log carrying the operation and the delivery error |
| Telemetry.Client.AfterFn | goinsight/client.go:197-222 | after fn returns: the completion log, then the deferred FinishSpan and its failure log, as `AfterRun` lists them |
| Telemetry.Client.Instrument | goinsight/client.go:187-226 | fn is applied to the span context, or to the caller's when StartSpan failed, and its error is returned; the requests are StartSpan's, then `AfterRun`'s, the sequence InstrumentOutcome lists; one run is recorded, after the span request and before any log |
| Telemetry.InstrumentEndsCallerSpan | goinsight/client.go:190-204 | as written: when StartSpan fails on a context that already has a span, the deferred finish ends the caller's span |
| Telemetry.InstrumentUntracedLogsFailure | goinsight/client.go:190-204 | as written: on a context without a trace, the completion log is followed by an ERROR "Failed to finish span" log with "no trace context found", whatever fn returned |
| Telemetry.InstrumentScopedOutcome | goinsight/client.go:187-226 | corrected wrapper: fn's error returned unchanged, fn on the span context or the original one |
| Telemetry.ScopedEndsOnlyOwnSpan | goinsight/client.go:190-204 | corrected wrapper: any span end names the span its own StartSpan created, and that span is ended; with no span opened, no span is ended and no failure is logged |
| Telemetry.ScopedLogsOnce | goinsight/client.go:211-224 | the corrected wrapper also sends exactly one completion log, on the context fn ran with |
| Middleware.TraceName | goinsight/middleware.go:17 | the trace name is the method, one space, then the route; Echo's (goinsight/middleware.go:84) is the same |
| Middleware.TraceNameInjective | goinsight/middleware.go:17 | a method has no space, so two requests with the same trace name have the same method and route |
| Middleware.LevelForStatus | goinsight/middleware.go:49-54 | ERROR iff status >= 400, WARN iff 300..399, INFO iff below 300; the Echo adapter (goinsight/middleware.go:122-127) applies the same rule to the defaulted status |
| Middleware.EchoStatus | goinsight/middleware.go:97-100 | a status of 0 becomes 200; any other status is kept; the result is never 0 |
| Middleware.HeaderValue | goinsight/middleware.go:42 | a header's value, or "" when the request lacks it |
| Middleware.RequestMetric | goinsight/middleware.go:31-44 | the metric has the client's service, language "go", the framework and its version, the route, method and status, X-Request-ID as request id, and duration in ms; the Echo adapter (goinsight/middleware.go:104-117) builds the same fields from the defaulted status |
| Middleware.RequestLogMetadata | goinsight/middleware.go:56-62 | the log metadata has exactly the keys method, path, status_code, duration_ms (truncated ms) and user_agent, with the request's values; Echo's (goinsight/middleware.go:129-135) is the same on the defaulted status |
| Middleware.RequestLogMessage | goinsight/middleware.go:64 | "Request completed: " followed by the request's trace name; Echo's (goinsight/middleware.go:137) is the same |
| Middleware.TaskRequests | goinsight/middleware.go:30-73 | the metric task POSTs the request metric, already named for the client's service, to /metrics; the log task POSTs to /logs the entry at the status's level, with the client's service, the message, the metadata, and the trace and span ids of the request context's carrier; the finish task, only when traced, ends the span and then the trace of that carrier, or sends nothing without one; Echo's tasks (goinsight/middleware.go:103-146) are the same |
| Middleware.ConcatPermutation | goinsight/middleware.go:30-73 | two orders of the same background tasks send the same requests, up to order |
| Middleware.EmissionsAnyOrder | goinsight/middleware.go:30-73 | in any schedule, one metric, one completion log, and the span and trace ends only when a carrier came back; untraced, exactly two requests |
| Middleware.RunTask | goinsight/middleware.go:30-73 | one background task sends exactly that task's requests: FinishSpan then FinishTrace on the request context, and only when traced |
| Middleware.RunBackground | goinsight/middleware.go:30-73 | the three goroutines of a request (Gin's at goinsight/middleware.go:30-73, Echo's at goinsight/middleware.go:103-146) run whole, in the scheduler's order, and together send exactly the requests of that schedule |
| Middleware.BeginRequest | goinsight/middleware.go:17-21 | the trace is named "METHOD path"; the request context and the "go-insight-trace" store entry are replaced only when StartTrace gave no error |
| Middleware.GinMiddleware | goinsight/middleware.go:12-75 | trace attach as above, the handler runs on the resulting context, then the three tasks in any order, with finishing only when the carrier is non-nil |
| Middleware.EchoMiddleware | goinsight/middleware.go:78-151 | as Gin's, but the metric and the log use status 0 as 200, and the handler's error is returned unchanged |
| Middleware.PartialTraceNeverEnded | goinsight/middleware.go:17-73 | as written: if the trace is created but its root span is not, the carrier is non-nil and yet no request ever ends the new trace |
| Middleware.CarrierFinishRequests | goinsight/middleware.go:68-73 | corrected finishing task: nothing iff no carrier came back; otherwise the end of its root span iff that id is non-empty, and last the end of its trace |
| Middleware.CarrierFinishEndsCreatedTrace | goinsight/middleware.go:68-73 | corrected finishing, from the returned carrier: every created trace is ended by its own id; its root span is ended iff it was created with a non-empty id |

## Left out

- HTTP internals are not modelled: JSON marshalling, `http.NewRequest`, the headers, URL joining and the timeout. A timeout shows up here as a missing reply.
- Request-building errors are not modelled. `http.NewRequest` (goinsight/client.go:159-161) fails with "failed to create request" for an endpoint that does not parse, or for a collector-assigned id that puts a bad escape or a control character into a finish path (e.g. the id `%zz`). The model always builds the request.
- Collector.EndPathsRoundTrip: the round trip is a property of the path strings. The source does not escape ids, so an id holding `/`, `?` or `#` does not reach the collector as that id; the model does not capture URL parsing.
- Carriers are values. In the source one `*TraceContext` is shared by StartTrace's result, the context value and the framework store entry (goinsight/tracing.go:18, 34, 36; goinsight/middleware.go:20, 87). The core never writes a carrier after StartTrace, so this pointer sharing is not modelled.
- JSON decoding is abstracted: a reply body is either a JSON object, with or without a string `id`, or not JSON.
- `resp["id"].(string)` panics when the id is missing or not a string. Here that path returns `MissingId`, whose text is invented.
- A request with no scripted reply finds the collector unreachable; the cause text is invented.
- Goroutines are not modelled. Each adapter task runs whole, and only the order of the three tasks varies. Interleaving inside a task, and the data race of tasks reading the framework context after the handler returns, are out of scope.
- Wall-clock time is out of scope. The elapsed time is a natural-number input in nanoseconds.
- `float64(ns) / 1e6` is modelled as an exact real division; float64 rounding is out of scope.
- Framework objects are plain fields of `RequestScope`: method, route, headers, context, store and status. Header lookup is exact; no canonicalisation is modelled.
- `gin.Version` and `echo.Version` are parameters.
- `fn` and the handlers are pure functions of their context. An instrumented function or a handler that itself calls the client, or nests `Instrument`, is not modelled.
- Telemetry.Client.Instrument: models one call of the returned closure, not the closure value. Its duration is a parameter. Because `fn` is pure, "fn runs exactly once, after the span request and before any log" is recorded in the ghost `runs` by Instrument itself, not observed: a body applying `fn` twice would meet the same contract.
- LogEntry and Metric metadata are maps of strings and integers only (`interface{}` values of other types are out of scope).
- The repository's demo programs (manual instrumentation, Gin and Echo servers) are not part of this model.

## Findings

| source | as written | input that shows it | evidently intended | confidence | as-written member | corrected member |
|---|---|---|---|---|---|---|
| goinsight/client.go:190-204 | when StartSpan fails, spanCtx falls back to ctx, and the deferred FinishSpan runs on it | a ctx carrying span S and a collector that rejects the new span: `/spans/S/end` is sent | to finish only a span Instrument opened itself, as the repository's manual-instrumentation example does | medium, not executed | Telemetry.InstrumentEndsCallerSpan | Telemetry.ScopedEndsOnlyOwnSpan |
| goinsight/client.go:190-204 | on a context without a trace, StartSpan fails and the deferred FinishSpan runs on the same context, so it fails too | a context without a trace and an fn that succeeds: an INFO completion log, then an ERROR "Failed to finish span" log with "no trace context found" | to do nothing at finish when no span was opened, and to log no ERROR when fn succeeded | medium, not executed | Telemetry.InstrumentUntracedLogsFailure | Telemetry.ScopedEndsOnlyOwnSpan |
| goinsight/middleware.go:17-73 | the context is replaced only when err is nil, but finishing is keyed on traceCtx being non-nil, and runs on the request context | trace creation returns t1 and root span creation fails: traceCtx is {t1, ""}, the request context has no carrier, and `/traces/t1/end` is never sent | to end the trace that was created, by the ids of the returned carrier | medium, not executed | Middleware.PartialTraceNeverEnded | Middleware.CarrierFinishEndsCreatedTrace |

The Client methods and the adapters model the code as written. The corrected
definitions stand beside them as `InstrumentScopedOutcome` and `CarrierFinishRequests`.
