/**
 * The records the SDK sends to the collector (goinsight/models.go), the values that
 * may appear in free-form metadata, and the errors the SDK's operations return.
 * Optional JSON fields (`omitempty`) are empty strings or `Option`s; time is measured
 * in nanoseconds, as Go's time.Duration is.
 */
module Models {
  import opened Wrappers

  /** Client configuration. `timeout` is a time.Duration in nanoseconds; 0 means "use the default". */
  datatype Config = Config(apiKey: string, endpoint: string, serviceName: string, timeout: int)

  /** A value of a metadata map (Go's `interface{}`): the SDK only ever stores strings and integers. */
  datatype Value = VStr(s: string) | VInt(i: int)

  /** A log entry; `traceId` and `spanId` are "" when no carrier was present. */
  datatype LogEntry = LogEntry(
    serviceName: string,
    logLevel: string,
    message: string,
    traceId: string,
    spanId: string,
    metadata: Option<map<string, Value>>)

  /** Where a metric comes from: language, framework and framework version. */
  datatype MetricSource = MetricSource(language: string, framework: string, version: string)

  /** A performance metric; `durationMs` is the exact quotient the source rounds to float64. */
  datatype Metric = Metric(
    serviceName: string,
    path: string,
    httpMethod: string,
    statusCode: int,
    durationMs: real,
    source: MetricSource,
    environment: string,
    requestId: string,
    metadata: Option<map<string, Value>>)

  /** A trace as sent on creation: the id is assigned by the collector, so it is sent as "". */
  datatype Trace = Trace(id: string, serviceName: string)

  /** A span as sent on creation; `parentId` is "" for a root span. */
  datatype Span = Span(id: string, traceId: string, parentId: string, service: string, operation: string)

  /** The carrier riding on a context: the trace and the current span. */
  datatype TraceContext = TraceContext(traceId: string, spanId: string)

  /** The errors the SDK's operations return, and those an instrumented function returns. */
  datatype Error =
    | NoTraceContext            // a carrier was needed but the context holds none
    | SendFailed(cause: string) // the round trip itself failed (unreachable, timeout)
    | StatusFailed(status: int) // the collector answered outside 200..299
    | DecodeFailed(cause: string) // a create call's reply was not JSON
    | MissingId                 // a create call's JSON reply had no string "id"
    | AppError(text: string)    // an error produced by application code

  const LevelInfo := "INFO"
  const LevelWarn := "WARN"
  const LevelError := "ERROR"
  const LevelDebug := "DEBUG"

  function Digit(d: nat): (c: char)
    requires d < 10
    ensures '0' <= c <= '9'
  {
    "0123456789"[d]
  }

  /** Decimal rendering of a natural number, as `%d` prints it. */
  function NatToString(n: nat): (s: string)
    ensures |s| > 0
    ensures forall k :: 0 <= k < |s| ==> '0' <= s[k] <= '9'
    ensures n < 10 <==> |s| == 1
  {
    if n < 10 then [Digit(n)] else NatToString(n / 10) + [Digit(n % 10)]
  }

  /** Decimal rendering of an integer, with a leading '-' when it is negative. */
  function IntToString(i: int): (s: string)
    ensures |s| > 0
    ensures (s[0] == '-') <==> i < 0
  {
    if i < 0 then "-" + NatToString(-i) else NatToString(i)
  }

  /** What `err.Error()` returns for each error the SDK produces. */
  function ErrorText(e: Error): (text: string)
    ensures e.AppError? ==> text == e.text
    ensures !e.AppError? ==> |text| > 0
  {
    match e
    case NoTraceContext => "no trace context found"
    case SendFailed(cause) => "failed to send request: " + cause
    case StatusFailed(status) => "API request failed with status " + IntToString(status)
    case DecodeFailed(cause) => "failed to decode response: " + cause
    case MissingId => "response has no string id"
    case AppError(text) => text
  }

  /** Errors of the same kind, for telling the SDK's own error texts apart. */
  predicate SameKind(e1: Error, e2: Error)
  {
    || (e1.NoTraceContext? && e2.NoTraceContext?)
    || (e1.SendFailed? && e2.SendFailed?)
    || (e1.StatusFailed? && e2.StatusFailed?)
    || (e1.DecodeFailed? && e2.DecodeFailed?)
    || (e1.MissingId? && e2.MissingId?)
    || (e1.AppError? && e2.AppError?)
  }

  /** The text of an SDK error names its kind: two SDK errors of different kinds never read alike. */
  lemma ErrorTextNamesKind(e1: Error, e2: Error)
    requires !e1.AppError? && !e2.AppError?
    requires ErrorText(e1) == ErrorText(e2)
    ensures SameKind(e1, e2)
  {
    var t := ErrorText(e1);
    assert t[0] == ErrorText(e2)[0];
    if e1.SendFailed? || e1.DecodeFailed? {
      assert t[10] == ErrorText(e2)[10];
    }
  }
}
