/**
 * The telemetry client of goinsight/client.go and goinsight/tracing.go: configuration,
 * log and metric emission, the trace/span operations, and the instrumentation wrapper.
 * A Client keeps the requests it has sent, in order; the collector behind it is the
 * stub of module Collector, whose reply to request k is ReplyAt(script, k).
 */
module Telemetry {
  import opened Wrappers
  import opened Models
  import opened Collector
  import opened Tracing

  /** 5 * time.Second, in nanoseconds. */
  const DefaultTimeout: int := 5_000_000_000

  /** The timeout New gives the HTTP client: the configured one, or the default when it is zero. */
  function EffectiveTimeout(configured: int): (t: int)
    ensures t != 0
    ensures configured != 0 ==> t == configured
    ensures configured == 0 ==> t == DefaultTimeout
  {
    if configured == 0 then DefaultTimeout else configured
  }

  /** A Go metadata map: a reference, so a callee that writes it writes the caller's map. */
  class Metadata {
    var entries: map<string, Value>

    constructor (entries: map<string, Value>)
      ensures this.entries == entries
    {
      this.entries := entries;
    }
  }

  /** The metadata of a log entry as it is sent: nil stays absent, a map is sent as it is then. */
  function Snapshot(m: Metadata?): Option<map<string, Value>>
    reads m
  {
    if m == null then None else Some(m.entries)
  }

  /** One argument of LogError's variadic `...interface{}` list, by its dynamic type. */
  datatype Arg =
    | ErrArg(err: Error)        // a value of type error
    | MapArg(m: Metadata?)      // a map[string]interface{}, possibly a nil one
    | NilArg                    // an untyped nil
    | OtherArg(v: Value)        // anything else: a string, a number

  /** The error LogError's scan keeps: the last error argument, or none if there is none. */
  function LastError(args: seq<Arg>): (r: Option<Error>)
    ensures r.None? <==> forall k :: 0 <= k < |args| ==> !args[k].ErrArg?
  {
    if args == [] then None
    else if args[|args| - 1].ErrArg? then Some(args[|args| - 1].err)
    else LastError(args[..|args| - 1])
  }

  /** The map LogError's scan keeps: the last map argument (nil if it is a nil map), or nil if there is none. */
  function LastMap(args: seq<Arg>): (r: Metadata?)
    ensures (forall k :: 0 <= k < |args| ==> !args[k].MapArg?) ==> r == null
  {
    if args == [] then null
    else if args[|args| - 1].MapArg? then args[|args| - 1].m
    else LastMap(args[..|args| - 1])
  }

  /** An error argument followed only by non-errors is the one the scan keeps, wherever it stands. */
  lemma {:induction false} LastErrorWins(pre: seq<Arg>, e: Error, post: seq<Arg>)
    requires forall k :: 0 <= k < |post| ==> !post[k].ErrArg?
    ensures LastError(pre + [ErrArg(e)] + post) == Some(e)
    decreases |post|
  {
    var a := pre + [ErrArg(e)] + post;
    if post == [] {
      assert a[|a| - 1] == ErrArg(e);
    } else {
      LastErrorWins(pre, e, post[..|post| - 1]);
      assert a[..|a| - 1] == pre + [ErrArg(e)] + post[..|post| - 1];
    }
  }

  /** A map argument followed only by non-maps is the one the scan keeps, a nil map included. */
  lemma {:induction false} LastMapWins(pre: seq<Arg>, m: Metadata?, post: seq<Arg>)
    requires forall k :: 0 <= k < |post| ==> !post[k].MapArg?
    ensures LastMap(pre + [MapArg(m)] + post) == m
    decreases |post|
  {
    var a := pre + [MapArg(m)] + post;
    if post == [] {
      assert a[|a| - 1] == MapArg(m);
    } else {
      LastMapWins(pre, m, post[..|post| - 1]);
      assert a[..|a| - 1] == pre + [MapArg(m)] + post[..|post| - 1];
    }
  }

  /** The map LogError may write: the caller's map that won the scan, if it is not nil. */
  function Winner(args: seq<Arg>): set<object>
  {
    if LastMap(args) == null then {} else {LastMap(args)}
  }

  /**
   * Swapping two neighbouring arguments that are not both errors and not both maps
   * changes neither the error nor the map the scan keeps; in particular
   * LogError(ctx, msg, err, m) and LogError(ctx, msg, m, err) send the same entry.
   */
  lemma {:induction false} SwapDifferentKinds(pre: seq<Arg>, x: Arg, y: Arg, post: seq<Arg>)
    requires !(x.ErrArg? && y.ErrArg?) && !(x.MapArg? && y.MapArg?)
    ensures LastError(pre + [x, y] + post) == LastError(pre + [y, x] + post)
    ensures LastMap(pre + [x, y] + post) == LastMap(pre + [y, x] + post)
    decreases |post|
  {
    var a, b := pre + [x, y] + post, pre + [y, x] + post;
    if post == [] {
      assert a[..|a| - 1] == pre + [x] && a[..|a| - 1][..|pre|] == pre;
      assert b[..|b| - 1] == pre + [y] && b[..|b| - 1][..|pre|] == pre;
    } else {
      SwapDifferentKinds(pre, x, y, post[..|post| - 1]);
      assert a[..|a| - 1] == pre + [x, y] + post[..|post| - 1];
      assert b[..|b| - 1] == pre + [y, x] + post[..|post| - 1];
    }
  }

  /** Arguments that are neither errors nor maps, an untyped nil among them, are ignored. */
  lemma {:induction false} IgnoredArgument(pre: seq<Arg>, x: Arg, post: seq<Arg>)
    requires x.NilArg? || x.OtherArg?
    ensures LastError(pre + [x] + post) == LastError(pre + post)
    ensures LastMap(pre + [x] + post) == LastMap(pre + post)
    decreases |post|
  {
    var a, b := pre + [x] + post, pre + post;
    if post == [] {
      assert a[|a| - 1] == x && a[..|a| - 1] == pre && b == pre;
    } else {
      IgnoredArgument(pre, x, post[..|post| - 1]);
      assert a[|a| - 1] == b[|b| - 1] == post[|post| - 1];
      assert a[..|a| - 1] == pre + [x] + post[..|post| - 1];
      assert b[..|b| - 1] == pre + post[..|post| - 1];
    }
  }

  /** LogError's scan of its extra arguments (goinsight/client.go:66-76). */
  method ScanErrAndMetadata(args: seq<Arg>) returns (err: Option<Error>, metadata: Metadata?)
    ensures err == LastError(args) && metadata == LastMap(args)
  {
    err, metadata := None, null;
    for i := 0 to |args|
      invariant err == LastError(args[..i]) && metadata == LastMap(args[..i])
    {
      assert args[..i + 1][..i] == args[..i];
      match args[i]
      case ErrArg(e) => err := Some(e);
      case MapArg(m) => metadata := m;
      case NilArg =>
      case OtherArg(_) =>
    }
    assert args[..|args|] == args;
  }

  /** The metadata LogError sends: the kept map with "error" set to the kept error's text, if any. */
  function WithError(base: map<string, Value>, found: Option<Error>): (m: map<string, Value>)
    ensures found.None? ==> m == base
    ensures m.Keys == base.Keys + (if found.Some? then {"error"} else {})
    ensures found.Some? ==> m["error"] == VStr(ErrorText(found.value))
    ensures forall k :: k in base && k != "error" ==> m[k] == base[k]
  {
    if found.Some? then base["error" := VStr(ErrorText(found.value))] else base
  }

  /** The entry Log sends: the client's service, the arguments, and the ids of the context's carrier if any. */
  function NewEntry(service: string, ctx: Context, level: string, message: string, metadata: Option<map<string, Value>>): (e: LogEntry)
    ensures e.serviceName == service && e.logLevel == level && e.message == message && e.metadata == metadata
    ensures GetTraceFromContext(ctx).Some? ==>
              e.traceId == GetTraceFromContext(ctx).value.traceId && e.spanId == GetTraceFromContext(ctx).value.spanId
    ensures GetTraceFromContext(ctx).None? ==> e.traceId == "" && e.spanId == ""
  {
    match GetTraceFromContext(ctx)
    case None => LogEntry(service, level, message, "", "", metadata)
    case Some(tc) => LogEntry(service, level, message, tc.traceId, tc.spanId, metadata)
  }

  /** The metric SendMetric sends: an empty service name becomes the client's; nothing else changes. */
  function WithServiceName(metric: Metric, service: string): (r: Metric)
    ensures r.serviceName == (if metric.serviceName == "" then service else metric.serviceName)
    ensures r.(serviceName := metric.serviceName) == metric
  {
    if metric.serviceName == "" then metric.(serviceName := service) else metric
  }

  /** A metric that already names the service is sent unchanged. */
  lemma WithServiceNameKeepsNamed(metric: Metric, service: string)
    requires metric.serviceName == service
    ensures WithServiceName(metric, service) == metric
  {
  }

  /** duration.Milliseconds() of an elapsed time in nanoseconds (truncating; durations are not negative). */
  function DurationMs(elapsedNanos: nat): (ms: nat)
    ensures ms * 1000000 <= elapsedNanos < (ms + 1) * 1000000
  {
    elapsedNanos / 1000000
  }

  /** The metadata of Instrument's completion log before LogError adds the error. */
  function CompletionMetadata(operation: string, elapsedNanos: nat): map<string, Value>
  {
    map["operation" := VStr(operation), "duration_ms" := VInt(DurationMs(elapsedNanos))]
  }

  function FailedMessage(operation: string): string
  {
    "Operation failed: " + operation
  }

  function CompletedMessage(operation: string): string
  {
    "Operation completed: " + operation
  }

  const FinishFailedMessage := "Failed to finish span"

  /** What one call of Instrument(operation, fn) returns, the context fn ran with, and the requests sent. */
  datatype Instrumented = Instrumented(err: Option<Error>, fnCtx: Context, startSent: seq<Request>, sent: seq<Request>)

  /** Instrument's completion log: ERROR with the failure when fn failed, INFO otherwise. */
  function CompletionEntry(service: string, spanCtx: Context, operation: string, fnErr: Option<Error>, elapsedNanos: nat): (e: LogEntry)
    ensures e.logLevel == (if fnErr.Some? then LevelError else LevelInfo)
    ensures e.message == (if fnErr.Some? then FailedMessage(operation) else CompletedMessage(operation))
    ensures e.metadata == Some(WithError(CompletionMetadata(operation, elapsedNanos), fnErr))
    ensures e == NewEntry(service, spanCtx, e.logLevel, e.message, e.metadata)
  {
    if fnErr.Some?
    then NewEntry(service, spanCtx, LevelError, FailedMessage(operation),
                  Some(WithError(CompletionMetadata(operation, elapsedNanos), fnErr)))
    else NewEntry(service, spanCtx, LevelInfo, CompletedMessage(operation),
                  Some(CompletionMetadata(operation, elapsedNanos)))
  }

  /** What the deferred step logs when FinishSpan failed: one ERROR entry, else nothing. */
  function FinishFailureLog(service: string, spanCtx: Context, operation: string, finishErr: Option<Error>): (sent: seq<Request>)
    ensures finishErr.None? <==> sent == []
    ensures finishErr.Some? ==>
              sent == [LogRequest(NewEntry(service, spanCtx, LevelError, FinishFailedMessage,
                                           Some(WithError(map["operation" := VStr(operation)], finishErr))))]
  {
    if finishErr.Some?
    then [LogRequest(NewEntry(service, spanCtx, LevelError, FinishFailedMessage,
                              Some(WithError(map["operation" := VStr(operation)], finishErr))))]
    else []
  }

  /**
   * One call of the function Instrument(operation, fn) returns, on ctx, with fn taking
   * elapsedNanos and the first request answered by script reply `at`
   * (goinsight/client.go:187-226). As written: when StartSpan fails, the deferred
   * FinishSpan runs on the caller's own context.
   */
  function InstrumentOutcome(service: string, operation: string, fn: Context -> Option<Error>, ctx: Context,
                             elapsedNanos: nat, script: seq<Reply>, at: nat): (o: Instrumented)
    ensures o.err == fn(o.fnCtx)
    ensures var s := StartSpanOutcome(service, ctx, operation, script, at);
      o.startSent == s.sent && o.fnCtx == (if s.err.None? then s.ctx else ctx)
    // the requests after the span request: those of AfterRun, numbered on from it
    ensures o.sent == o.startSent + AfterRun(service, operation, o.fnCtx, o.err, elapsedNanos, script, at + |o.startSent|)
  {
    var s := StartSpanOutcome(service, ctx, operation, script, at);
    var spanCtx := if s.err.None? then s.ctx else ctx;
    Instrumented(fn(spanCtx), spanCtx, s.sent,
                 s.sent + AfterRun(service, operation, spanCtx, fn(spanCtx), elapsedNanos, script, at + |s.sent|))
  }

  /**
   * What Instrument sends once fn has returned fnErr on spanCtx, from request `at` on:
   * the completion log, then the deferred FinishSpan and, if that failed, its failure log.
   */
  function AfterRun(service: string, operation: string, spanCtx: Context, fnErr: Option<Error>,
                    elapsedNanos: nat, script: seq<Reply>, at: nat): (sent: seq<Request>)
    ensures 2 <= |sent| <= 3 && sent[0] == LogRequest(CompletionEntry(service, spanCtx, operation, fnErr, elapsedNanos))
    // no carrier: FinishSpan sends nothing and fails, so the failure log always follows
    ensures GetTraceFromContext(spanCtx).None? ==>
              sent == [sent[0], LogRequest(NewEntry(service, spanCtx, LevelError, FinishFailedMessage,
                                                    Some(WithError(map["operation" := VStr(operation)], Some(NoTraceContext)))))]
    // a carrier: the end of its span, then a failure log iff that request failed
    ensures GetTraceFromContext(spanCtx).Some? ==>
              sent[1] == EndSpanRequest(GetTraceFromContext(spanCtx).value.spanId) &&
              (|sent| == 3 <==> Delivery(ReplyAt(script, at + 1)).Some?) &&
              (|sent| == 3 ==> sent[2] == LogRequest(NewEntry(service, spanCtx, LevelError, FinishFailedMessage,
                                 Some(WithError(map["operation" := VStr(operation)], Delivery(ReplyAt(script, at + 1)))))))
  {
    var finish := FinishSpanOutcome(spanCtx, script, at + 1);
    [LogRequest(CompletionEntry(service, spanCtx, operation, fnErr, elapsedNanos))]
    + finish.sent + FinishFailureLog(service, spanCtx, operation, finish.err)
  }

  predicate IsCompletionLog(r: Request, operation: string)
  {
    r.path == LogsPath && r.payload.LogPayload? &&
    (r.payload.entry.message == FailedMessage(operation) || r.payload.entry.message == CompletedMessage(operation))
  }

  /** The completion logs of an operation among the requests sent, in order. */
  function CompletionLogs(sent: seq<Request>, operation: string): (logs: seq<LogEntry>)
    ensures |logs| <= |sent|
  {
    if sent == [] then []
    else (if IsCompletionLog(sent[0], operation) then [sent[0].payload.entry] else [])
         + CompletionLogs(sent[1..], operation)
  }

  lemma {:induction false} CompletionLogsAppend(a: seq<Request>, b: seq<Request>, operation: string)
    ensures CompletionLogs(a + b, operation) == CompletionLogs(a, operation) + CompletionLogs(b, operation)
    decreases |a|
  {
    if a != [] {
      var head := if IsCompletionLog(a[0], operation) then [a[0].payload.entry] else [];
      assert (a + b)[0] == a[0] && (a + b)[1..] == a[1..] + b;
      CompletionLogsAppend(a[1..], b, operation);
      calc {
        CompletionLogs(a + b, operation);
        head + CompletionLogs(a[1..] + b, operation);
        head + (CompletionLogs(a[1..], operation) + CompletionLogs(b, operation));
        (head + CompletionLogs(a[1..], operation)) + CompletionLogs(b, operation);
        CompletionLogs(a, operation) + CompletionLogs(b, operation);
      }
    } else {
      assert a + b == b;
    }
  }

  /**
   * Instrument emits exactly one completion log, whether or not a span could be started:
   * ERROR with the failure's text when fn failed, INFO otherwise, both with the operation
   * and the duration in milliseconds, on the context fn ran with; and it returns fn's
   * error unchanged. A failure to finish the span adds only a "Failed to finish span" log.
   */
  lemma InstrumentLogsOnce(service: string, operation: string, fn: Context -> Option<Error>, ctx: Context,
                           elapsedNanos: nat, script: seq<Reply>, at: nat)
    ensures var o := InstrumentOutcome(service, operation, fn, ctx, elapsedNanos, script, at);
      CompletionLogs(o.sent, operation) == [CompletionEntry(service, o.fnCtx, operation, o.err, elapsedNanos)]
  {
    var o := InstrumentOutcome(service, operation, fn, ctx, elapsedNanos, script, at);
    StartIsNoCompletion(service, ctx, operation, script, at);
    AfterRunLogsOnce(service, operation, o.fnCtx, o.err, elapsedNanos, script, at + |o.startSent|);
    CompletionLogsAppend(o.startSent, AfterRun(service, operation, o.fnCtx, o.err, elapsedNanos, script, at + |o.startSent|), operation);
  }

  /** After fn returns, exactly one completion log is sent. */
  lemma AfterRunLogsOnce(service: string, operation: string, spanCtx: Context, fnErr: Option<Error>,
                         elapsedNanos: nat, script: seq<Reply>, at: nat)
    ensures CompletionLogs(AfterRun(service, operation, spanCtx, fnErr, elapsedNanos, script, at), operation) ==
              [CompletionEntry(service, spanCtx, operation, fnErr, elapsedNanos)]
  {
    var finish := FinishSpanOutcome(spanCtx, script, at + 1);
    var completion := LogRequest(CompletionEntry(service, spanCtx, operation, fnErr, elapsedNanos));
    var failure := FinishFailureLog(service, spanCtx, operation, finish.err);
    FinishIsNoCompletion(spanCtx, script, at + 1, operation);
    FinishFailureIsNoCompletion(service, spanCtx, operation, finish.err);
    CompletionLogsOfParts([], completion, finish.sent, failure, operation);
    assert [] + [completion] + finish.sent + failure == AfterRun(service, operation, spanCtx, fnErr, elapsedNanos, script, at);
  }

  /** A span creation request is not a completion log. */
  lemma StartIsNoCompletion(service: string, ctx: Context, operation: string, script: seq<Reply>, at: nat)
    ensures CompletionLogs(StartSpanOutcome(service, ctx, operation, script, at).sent, operation) == []
  {
    var sent := StartSpanOutcome(service, ctx, operation, script, at).sent;
    if sent != [] {
      assert sent[0].path == SpansPath && sent[1..] == [];
    }
  }

  /** A span end request is not a completion log. */
  lemma FinishIsNoCompletion(ctx: Context, script: seq<Reply>, at: nat, operation: string)
    ensures CompletionLogs(FinishSpanOutcome(ctx, script, at).sent, operation) == []
  {
    var sent := FinishSpanOutcome(ctx, script, at).sent;
    if sent != [] {
      assert sent[0].payload.NoPayload? && sent[1..] == [];
    }
  }

  /** The "Failed to finish span" log is not a completion log. */
  lemma FinishFailureIsNoCompletion(service: string, spanCtx: Context, operation: string, finishErr: Option<Error>)
    ensures CompletionLogs(FinishFailureLog(service, spanCtx, operation, finishErr), operation) == []
  {
    var failure := FinishFailureLog(service, spanCtx, operation, finishErr);
    if failure != [] {
      assert FinishFailedMessage[0] == 'F';
      assert FailedMessage(operation)[0] == 'O' && CompletedMessage(operation)[0] == 'O';
      assert failure[1..] == [];
    }
  }

  lemma CompletionLogsOfParts(a: seq<Request>, c: Request, f: seq<Request>, g: seq<Request>, operation: string)
    requires CompletionLogs(a, operation) == [] && CompletionLogs(f, operation) == [] && CompletionLogs(g, operation) == []
    requires IsCompletionLog(c, operation)
    ensures CompletionLogs(a + [c] + f + g, operation) == [c.payload.entry]
  {
    assert CompletionLogs([c], operation) == [c.payload.entry] by {
      assert [c][1..] == [];
    }
    CompletionLogsAppend(a, [c], operation);
    CompletionLogsAppend(a + [c], f, operation);
    CompletionLogsAppend(a + [c] + f, g, operation);
  }

  /**
   * As written, when StartSpan fails on a context that already carries a span, the
   * deferred FinishSpan closes that span, the caller's, which Instrument never opened.
   */
  lemma InstrumentEndsCallerSpan(service: string, operation: string, fn: Context -> Option<Error>, ctx: Context,
                                 elapsedNanos: nat, script: seq<Reply>, at: nat)
    requires GetTraceFromContext(ctx).Some?
    requires CreatedId(ReplyAt(script, at)).Failure?
    ensures EndSpanRequest(GetTraceFromContext(ctx).value.spanId) in
              InstrumentOutcome(service, operation, fn, ctx, elapsedNanos, script, at).sent
  {
    var o := InstrumentOutcome(service, operation, fn, ctx, elapsedNanos, script, at);
    assert o.sent[2] == EndSpanRequest(GetTraceFromContext(ctx).value.spanId);
  }

  /**
   * As written, on a context without a trace, StartSpan fails, the deferred FinishSpan
   * runs on that same context and fails too, so Instrument sends an ERROR "Failed to
   * finish span" log after the completion log, even when fn succeeded.
   */
  lemma InstrumentUntracedLogsFailure(service: string, operation: string, fn: Context -> Option<Error>, ctx: Context,
                                      elapsedNanos: nat, script: seq<Reply>, at: nat)
    requires GetTraceFromContext(ctx).None?
    ensures var o := InstrumentOutcome(service, operation, fn, ctx, elapsedNanos, script, at);
      && o.fnCtx == ctx
      && o.sent == [LogRequest(CompletionEntry(service, ctx, operation, fn(ctx), elapsedNanos)),
                    LogRequest(NewEntry(service, ctx, LevelError, FinishFailedMessage,
                                        Some(WithError(map["operation" := VStr(operation)], Some(NoTraceContext)))))]
  {
  }

  /**
   * Instrument as evidently intended (the pattern of the repository's own manual
   * instrumentation example): the span is finished only if StartSpan opened one.
   */
  function InstrumentScopedOutcome(service: string, operation: string, fn: Context -> Option<Error>, ctx: Context,
                                   elapsedNanos: nat, script: seq<Reply>, at: nat): (o: Instrumented)
    ensures o.err == fn(o.fnCtx)
    ensures var s := StartSpanOutcome(service, ctx, operation, script, at);
      o.startSent == s.sent && o.fnCtx == (if s.err.None? then s.ctx else ctx)
  {
    var s := StartSpanOutcome(service, ctx, operation, script, at);
    var spanCtx := if s.err.Some? then ctx else s.ctx;
    var fnErr := fn(spanCtx);
    var finish := if s.err.Some? then Delivered(None, []) else FinishSpanOutcome(spanCtx, script, at + |s.sent| + 1);
    Instrumented(fnErr, spanCtx, s.sent,
                 s.sent + [LogRequest(CompletionEntry(service, spanCtx, operation, fnErr, elapsedNanos))]
                 + finish.sent + FinishFailureLog(service, spanCtx, operation, finish.err))
  }

  /**
   * The corrected wrapper ends a span only if it is the one its own StartSpan created,
   * and then ends exactly that one; when no span was opened it ends none and never
   * reports a failure to finish.
   */
  lemma ScopedEndsOnlyOwnSpan(service: string, operation: string, fn: Context -> Option<Error>, ctx: Context,
                              elapsedNanos: nat, script: seq<Reply>, at: nat)
    ensures var o := InstrumentScopedOutcome(service, operation, fn, ctx, elapsedNanos, script, at);
      var s := StartSpanOutcome(service, ctx, operation, script, at);
      && (forall r :: r in o.sent && EndSpanTarget(r.path).Some? ==>
            s.err.None? && r == EndSpanRequest(CreatedId(ReplyAt(script, at)).value))
      && (s.err.None? ==> EndSpanRequest(CreatedId(ReplyAt(script, at)).value) in o.sent)
      && (s.err.Some? ==> |o.sent| == |s.sent| + 1)
  {
    var o := InstrumentScopedOutcome(service, operation, fn, ctx, elapsedNanos, script, at);
    var s := StartSpanOutcome(service, ctx, operation, script, at);
    EndPathsRoundTrip("", "");
    if s.err.None? {
      var tc := GetTraceFromContext(ctx).value;
      assert GetTraceFromContext(o.fnCtx) == Some(TraceContext(tc.traceId, CreatedId(ReplyAt(script, at)).value));
    }
  }

  /** The corrected wrapper also emits exactly one completion log, on the context fn ran with. */
  lemma ScopedLogsOnce(service: string, operation: string, fn: Context -> Option<Error>, ctx: Context,
                       elapsedNanos: nat, script: seq<Reply>, at: nat)
    ensures var o := InstrumentScopedOutcome(service, operation, fn, ctx, elapsedNanos, script, at);
      CompletionLogs(o.sent, operation) == [CompletionEntry(service, o.fnCtx, operation, o.err, elapsedNanos)]
  {
    var s := StartSpanOutcome(service, ctx, operation, script, at);
    var spanCtx := if s.err.Some? then ctx else s.ctx;
    var finish := if s.err.Some? then Delivered(None, []) else FinishSpanOutcome(spanCtx, script, at + |s.sent| + 1);
    var completion := LogRequest(CompletionEntry(service, spanCtx, operation, fn(spanCtx), elapsedNanos));
    StartIsNoCompletion(service, ctx, operation, script, at);
    if s.err.None? {
      FinishIsNoCompletion(spanCtx, script, at + |s.sent| + 1, operation);
    }
    FinishFailureIsNoCompletion(service, spanCtx, operation, finish.err);
    var failure := FinishFailureLog(service, spanCtx, operation, finish.err);
    CompletionLogsOfParts(s.sent, completion, finish.sent, failure, operation);
    assert InstrumentScopedOutcome(service, operation, fn, ctx, elapsedNanos, script, at)
           == Instrumented(fn(spanCtx), spanCtx, s.sent, s.sent + [completion] + finish.sent + failure);
  }

  /** An invocation of an instrumented function: the context it got, after how many requests. */
  datatype Run = Run(ctx: Context, after: nat)

  /** The SDK client: immutable configuration, plus the requests sent so far to the stub collector. */
  class Client {
    const apiKey: string
    const endpoint: string
    const serviceName: string
    const timeout: int
    /** The stub collector's replies: request k is answered by ReplyAt(script, k). */
    const script: seq<Reply>
    /** Every request sent, in order. */
    var requests: seq<Request>
    /** Every invocation of an instrumented function, in order. */
    ghost var runs: seq<Run>

    /** New(config), against a collector that answers with `script` (goinsight/client.go:21-34). */
    constructor New(config: Config, script: seq<Reply>)
      ensures apiKey == config.apiKey && endpoint == config.endpoint && serviceName == config.serviceName
      ensures timeout == EffectiveTimeout(config.timeout)
      ensures this.script == script && requests == [] && runs == []
    {
      var cfg := config;
      if cfg.timeout == 0 {
        cfg := cfg.(timeout := DefaultTimeout);
      }
      apiKey, endpoint, serviceName, timeout := cfg.apiKey, cfg.endpoint, cfg.serviceName, cfg.timeout;
      this.script := script;
      requests, runs := [], [];
    }

    /** One HTTP round trip with the stub: the request is recorded and answered by the next reply. */
    method Exchange(request: Request) returns (reply: Reply)
      modifies this`requests
      ensures requests == old(requests) + [request]
      ensures reply == ReplyAt(script, |old(requests)|)
    {
      reply := ReplyAt(script, |requests|);
      requests := requests + [request];
    }

    /** sendRequestWithResponse: `decode` says whether a response target was passed. */
    method SendRequestWithResponse(httpMethod: string, path: string, data: Payload, decode: bool)
      returns (r: Result<Response, Error>)
      modifies this`requests
      ensures requests == old(requests) + [Request(httpMethod, path, data)]
      ensures r == Transport(ReplyAt(script, |old(requests)|), decode)
    {
      var reply := Exchange(Request(httpMethod, path, data));
      match reply
      case NoReply(cause) =>
        r := Failure(SendFailed(cause));
      case Http(status, body) =>
        if status < 200 || status >= 300 {
          r := Failure(StatusFailed(status));
        } else if !decode {
          r := Success(NoContent);
        } else {
          match body
          case Json(id) => r := Success(Decoded(id));
          case NotJson(cause) => r := Failure(DecodeFailed(cause));
        }
    }

    method SendRequest(httpMethod: string, path: string, data: Payload) returns (err: Option<Error>)
      modifies this`requests
      ensures requests == old(requests) + [Request(httpMethod, path, data)]
      ensures err == Delivery(ReplyAt(script, |old(requests)|))
    {
      var r := SendRequestWithResponse(httpMethod, path, data, false);
      err := if r.Failure? then Some(r.error) else None;
    }

    method SendLog(entry: LogEntry) returns (err: Option<Error>)
      modifies this`requests
      ensures requests == old(requests) + [LogRequest(entry)]
      ensures err == Delivery(ReplyAt(script, |old(requests)|))
    {
      err := SendRequest(Post, LogsPath, LogPayload(entry));
    }

    /** sendMetric, renamed because SendMetric is the exported operation. */
    method PostMetric(metric: Metric) returns (err: Option<Error>)
      modifies this`requests
      ensures requests == old(requests) + [MetricRequest(metric)]
      ensures err == Delivery(ReplyAt(script, |old(requests)|))
    {
      err := SendRequest(Post, MetricsPath, MetricPayload(metric));
    }

    method SendTrace(trace: Trace) returns (r: Result<Response, Error>)
      modifies this`requests
      ensures requests == old(requests) + [TraceCreation(trace)]
      ensures r == Transport(ReplyAt(script, |old(requests)|), true)
    {
      r := SendRequestWithResponse(Post, TracesPath, TracePayload(trace), true);
    }

    method SendSpan(span: Span) returns (r: Result<Response, Error>)
      modifies this`requests
      ensures requests == old(requests) + [SpanCreation(span)]
      ensures r == Transport(ReplyAt(script, |old(requests)|), true)
    {
      r := SendRequestWithResponse(Post, SpansPath, SpanPayload(span), true);
    }

    method EndSpan(spanId: string) returns (err: Option<Error>)
      modifies this`requests
      ensures requests == old(requests) + [EndSpanRequest(spanId)]
      ensures err == Delivery(ReplyAt(script, |old(requests)|))
    {
      err := SendRequest(Post, EndSpanPath(spanId), NoPayload);
    }

    method EndTrace(traceId: string) returns (err: Option<Error>)
      modifies this`requests
      ensures requests == old(requests) + [EndTraceRequest(traceId)]
      ensures err == Delivery(ReplyAt(script, |old(requests)|))
    {
      err := SendRequest(Post, EndTracePath(traceId), NoPayload);
    }

    /** Log(ctx, level, message, metadata) (goinsight/client.go:37-53). */
    method Log(ctx: Context, level: string, message: string, metadata: Metadata?) returns (err: Option<Error>)
      modifies this`requests
      ensures requests == old(requests) + [LogRequest(NewEntry(serviceName, ctx, level, message, Snapshot(metadata)))]
      ensures err == Delivery(ReplyAt(script, |old(requests)|))
    {
      var traceCtx := GetTraceFromContext(ctx);
      var entry := LogEntry(serviceName, level, message, "", "", Snapshot(metadata));
      if traceCtx.Some? {
        entry := entry.(traceId := traceCtx.value.traceId);
        entry := entry.(spanId := traceCtx.value.spanId);
      }
      err := SendLog(entry);
    }

    /** LogInfo(ctx, message, metadata...): only the first map is used (goinsight/client.go:56-62). */
    method LogInfo(ctx: Context, message: string, metadata: seq<Metadata?>) returns (err: Option<Error>)
      modifies this`requests
      ensures requests == old(requests) +
        [LogRequest(NewEntry(serviceName, ctx, LevelInfo, message, if |metadata| > 0 then Snapshot(metadata[0]) else None))]
      ensures err == Delivery(ReplyAt(script, |old(requests)|))
    {
      var meta: Metadata? := null;
      if |metadata| > 0 {
        meta := metadata[0];
      }
      err := Log(ctx, LevelInfo, message, meta);
    }

    /** LogWarn(ctx, message, metadata...) (goinsight/client.go:89-95). */
    method LogWarn(ctx: Context, message: string, metadata: seq<Metadata?>) returns (err: Option<Error>)
      modifies this`requests
      ensures requests == old(requests) +
        [LogRequest(NewEntry(serviceName, ctx, LevelWarn, message, if |metadata| > 0 then Snapshot(metadata[0]) else None))]
      ensures err == Delivery(ReplyAt(script, |old(requests)|))
    {
      var meta: Metadata? := null;
      if |metadata| > 0 {
        meta := metadata[0];
      }
      err := Log(ctx, LevelWarn, message, meta);
    }

    /** LogDebug(ctx, message, metadata...) (goinsight/client.go:98-104). */
    method LogDebug(ctx: Context, message: string, metadata: seq<Metadata?>) returns (err: Option<Error>)
      modifies this`requests
      ensures requests == old(requests) +
        [LogRequest(NewEntry(serviceName, ctx, LevelDebug, message, if |metadata| > 0 then Snapshot(metadata[0]) else None))]
      ensures err == Delivery(ReplyAt(script, |old(requests)|))
    {
      var meta: Metadata? := null;
      if |metadata| > 0 {
        meta := metadata[0];
      }
      err := Log(ctx, LevelDebug, message, meta);
    }

    /**
     * LogError(ctx, message, args...) (goinsight/client.go:65-86): the last error and the
     * last map win; the map sent is never nil, and when an error was found its text is
     * written under "error" into the caller's own map.
     */
    method LogError(ctx: Context, message: string, args: seq<Arg>) returns (err: Option<Error>)
      modifies this`requests, Winner(args)
      ensures var w := LastMap(args);
        var sentMeta := WithError(if w == null then map[] else old(w.entries), LastError(args));
        && (w != null ==> w.entries == sentMeta)
        && requests == old(requests) + [LogRequest(NewEntry(serviceName, ctx, LevelError, message, Some(sentMeta)))]
        && err == Delivery(ReplyAt(script, |old(requests)|))
    {
      var found, metadata := ScanErrAndMetadata(args);
      if metadata == null {
        metadata := new Metadata(map[]);
      }
      if found.Some? {
        metadata.entries := metadata.entries["error" := VStr(ErrorText(found.value))];
      }
      err := Log(ctx, LevelError, message, metadata);
    }

    /** SendMetric(metric) (goinsight/client.go:107-113). */
    method SendMetric(metric: Metric) returns (err: Option<Error>)
      modifies this`requests
      ensures requests == old(requests) + [MetricRequest(WithServiceName(metric, serviceName))]
      ensures err == Delivery(ReplyAt(script, |old(requests)|))
    {
      var m := metric;
      if m.serviceName == "" {
        m := m.(serviceName := serviceName);
      }
      err := PostMetric(m);
    }

    /** StartTrace(ctx, operation) (goinsight/tracing.go:8-39). */
    method StartTrace(ctx: Context, operation: string) returns (newCtx: Context, carrier: Option<TraceContext>, err: Option<Error>)
      modifies this`requests
      ensures var o := StartTraceOutcome(serviceName, ctx, operation, script, |old(requests)|);
        newCtx == o.ctx && carrier == o.carrier && err == o.err && requests == old(requests) + o.sent
    {
      var resp := SendTrace(Trace("", serviceName));
      if resp.Failure? {
        return ctx, None, Some(resp.error);
      }
      var traceId := ResponseId(resp.value);
      if traceId.Failure? {
        return ctx, None, Some(traceId.error);
      }
      var traceCtx := TraceContext(traceId.value, "");
      var spanResp := SendSpan(Span("", traceCtx.traceId, "", serviceName, operation));
      if spanResp.Failure? {
        return ctx, Some(traceCtx), Some(spanResp.error);
      }
      var spanId := ResponseId(spanResp.value);
      if spanId.Failure? {
        return ctx, Some(traceCtx), Some(spanId.error);
      }
      traceCtx := traceCtx.(spanId := spanId.value);
      newCtx := Attach(ctx, traceCtx);
      return newCtx, Some(traceCtx), None;
    }

    /** StartSpan(ctx, operation) (goinsight/tracing.go:41-66). */
    method StartSpan(ctx: Context, operation: string) returns (newCtx: Context, err: Option<Error>)
      modifies this`requests
      ensures var o := StartSpanOutcome(serviceName, ctx, operation, script, |old(requests)|);
        newCtx == o.ctx && err == o.err && requests == old(requests) + o.sent
    {
      var traceCtx := GetTraceFromContext(ctx);
      if traceCtx.None? {
        return ctx, Some(NoTraceContext);
      }
      var resp := SendSpan(Span("", traceCtx.value.traceId, traceCtx.value.spanId, serviceName, operation));
      if resp.Failure? {
        return ctx, Some(resp.error);
      }
      var spanId := ResponseId(resp.value);
      if spanId.Failure? {
        return ctx, Some(spanId.error);
      }
      newCtx := Attach(ctx, TraceContext(traceCtx.value.traceId, spanId.value));
      return newCtx, None;
    }

    /** FinishSpan(ctx) (goinsight/tracing.go:68-75). */
    method FinishSpan(ctx: Context) returns (err: Option<Error>)
      modifies this`requests
      ensures var o := FinishSpanOutcome(ctx, script, |old(requests)|);
        err == o.err && requests == old(requests) + o.sent
    {
      var traceCtx := GetTraceFromContext(ctx);
      if traceCtx.None? {
        return Some(NoTraceContext);
      }
      err := EndSpan(traceCtx.value.spanId);
    }

    /** FinishTrace(ctx) (goinsight/tracing.go:77-84). */
    method FinishTrace(ctx: Context) returns (err: Option<Error>)
      modifies this`requests
      ensures var o := FinishTraceOutcome(ctx, script, |old(requests)|);
        err == o.err && requests == old(requests) + o.sent
    {
      var traceCtx := GetTraceFromContext(ctx);
      if traceCtx.None? {
        return Some(NoTraceContext);
      }
      err := EndTrace(traceCtx.value.traceId);
    }

    /** Instrument's completion log (goinsight/client.go:211-222); its error is ignored. */
    method LogCompletion(spanCtx: Context, operation: string, fnErr: Option<Error>, elapsedNanos: nat)
      modifies this`requests
      ensures requests == old(requests) + [LogRequest(CompletionEntry(serviceName, spanCtx, operation, fnErr, elapsedNanos))]
    {
      var metadata := new Metadata(CompletionMetadata(operation, elapsedNanos));
      if fnErr.Some? {
        var args := [ErrArg(fnErr.value), MapArg(metadata)];
        assert args[..1] == [ErrArg(fnErr.value)];
        assert LastMap(args) == metadata && LastError(args) == fnErr;
        var _ := LogError(spanCtx, FailedMessage(operation), args);
      } else {
        var _ := LogInfo(spanCtx, CompletedMessage(operation), [metadata]);
      }
    }

    /** Instrument's deferred function (goinsight/client.go:197-204): finish, and log a failure to finish. */
    method FinishDeferred(spanCtx: Context, operation: string)
      modifies this`requests
      ensures var finish := FinishSpanOutcome(spanCtx, script, |old(requests)|);
        requests == old(requests) + finish.sent + FinishFailureLog(serviceName, spanCtx, operation, finish.err)
    {
      var err := FinishSpan(spanCtx);
      if err.Some? {
        var failure := new Metadata(map["operation" := VStr(operation)]);
        var args := [ErrArg(err.value), MapArg(failure)];
        assert args[..1] == [ErrArg(err.value)];
        assert LastMap(args) == failure && LastError(args) == err;
        var _ := LogError(spanCtx, FinishFailedMessage, args);
      }
    }

    /** Everything Instrument does after fn returned: the completion log, then the deferred finish. */
    method AfterFn(spanCtx: Context, operation: string, fnErr: Option<Error>, elapsedNanos: nat)
      modifies this`requests
      ensures requests == old(requests) + AfterRun(serviceName, operation, spanCtx, fnErr, elapsedNanos, script, |old(requests)|)
    {
      LogCompletion(spanCtx, operation, fnErr, elapsedNanos);
      FinishDeferred(spanCtx, operation);
    }

    /**
     * A call of the function Instrument(operation, fn) returns, on ctx, where fn takes
     * elapsedNanos (goinsight/client.go:187-226): fn runs exactly once, after the span
     * request and before any log, and its error is returned unchanged. The requests are
     * those of InstrumentOutcome: the span request, then AfterRun.
     */
    method Instrument(operation: string, fn: Context -> Option<Error>, ctx: Context, elapsedNanos: nat)
      returns (fnErr: Option<Error>)
      modifies this`requests, this`runs
      ensures var s := StartSpanOutcome(serviceName, ctx, operation, script, |old(requests)|);
        var spanCtx := if s.err.Some? then ctx else s.ctx;
        && fnErr == fn(spanCtx)
        && requests == old(requests) + s.sent + AfterRun(serviceName, operation, spanCtx, fnErr, elapsedNanos, script, |old(requests)| + |s.sent|)
        && runs == old(runs) + [Run(spanCtx, |old(requests)| + |s.sent|)]
    {
      ghost var s := StartSpanOutcome(serviceName, ctx, operation, script, |requests|);
      var spanCtx, err := StartSpan(ctx, operation);
      if err.Some? {
        spanCtx := ctx;
      }
      assert spanCtx == (if s.err.Some? then ctx else s.ctx);
      ghost var started := requests;
      assert started == old(requests) + s.sent && |started| == |old(requests)| + |s.sent|;
      runs := runs + [Run(spanCtx, |requests|)];
      fnErr := fn(spanCtx);
      AfterFn(spanCtx, operation, fnErr, elapsedNanos);
      assert requests == started + AfterRun(serviceName, operation, spanCtx, fnErr, elapsedNanos, script, |started|);
    }
  }
}
