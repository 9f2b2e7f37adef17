/**
 * The per-request adapters of goinsight/middleware.go for Gin and Echo. A request
 * starts a trace named "<METHOD> <path>"; on success the request's context and the
 * framework's per-request store get the carrier; the handler runs; then three
 * background tasks (a metric, a completion log, and finishing span and trace) send
 * their requests in an order the scheduler picks. Each task runs as a whole; the
 * schedule is a parameter, any permutation of the three.
 */
module Middleware {
  import opened Wrappers
  import opened Models
  import opened Collector
  import opened Tracing
  import opened Telemetry

  /** The key under which the adapters store the carrier in the framework's per-request store. */
  const StoreKey := "go-insight-trace"

  /** The three background tasks launched after the handler returns. */
  datatype Task = EmitMetric | EmitLog | EmitFinish

  /** The order the scheduler runs the three tasks in: each exactly once. */
  predicate IsSchedule(schedule: seq<Task>)
  {
    multiset(schedule) == multiset{EmitMetric, EmitLog, EmitFinish}
  }

  /** The completion log's level from the status class. */
  function LevelForStatus(status: int): (level: string)
    ensures level == LevelError <==> status >= 400
    ensures level == LevelWarn <==> 300 <= status < 400
    ensures level == LevelInfo <==> status < 300
  {
    if status >= 400 then LevelError else if status >= 300 then LevelWarn else LevelInfo
  }

  /** Echo's status as the adapter reports it: a status never written (0) counts as 200. */
  function EchoStatus(raw: int): (status: int)
    ensures status != 0
    ensures raw != 0 ==> status == raw
    ensures raw == 0 ==> status == 200
  {
    if raw == 0 then 200 else raw
  }

  /** A request header's value, "" when the request has none. */
  function HeaderValue(headers: map<string, string>, name: string): (v: string)
    ensures name in headers ==> v == headers[name]
    ensures name !in headers ==> v == ""
  {
    if name in headers then headers[name] else ""
  }

  /** "<METHOD> <path>": the name of the trace and of its root span. */
  function TraceName(httpMethod: string, path: string): (name: string)
    ensures |name| == |httpMethod| + 1 + |path|
    ensures name[..|httpMethod|] == httpMethod && name[|httpMethod|] == ' ' && name[|httpMethod| + 1..] == path
  {
    httpMethod + " " + path
  }

  /** A method never holds a space, so a trace name gives back its method and its route. */
  lemma TraceNameInjective(m1: string, p1: string, m2: string, p2: string)
    requires ' ' !in m1 && ' ' !in m2
    requires TraceName(m1, p1) == TraceName(m2, p2)
    ensures m1 == m2 && p1 == p2
  {
  }

  /** What the background tasks of one request read once the handler has returned. */
  datatype Served = Served(
    framework: string,           // "gin" or "echo"
    version: string,             // gin.Version or echo.Version
    httpMethod: string,
    path: string,                // the route pattern
    headers: map<string, string>,
    status: int,                 // the status the adapter reports
    elapsedNanos: nat,
    ctx: Context,                // the request's context after trace start
    traced: bool)                // StartTrace returned a non-nil carrier

  /** The adapter's metric: the client's service, language "go", the framework, the X-Request-ID header. */
  function RequestMetric(service: string, r: Served): (m: Metric)
    ensures m.serviceName == service && m.source == MetricSource("go", r.framework, r.version)
    ensures m.path == r.path && m.httpMethod == r.httpMethod && m.statusCode == r.status
    ensures m.requestId == HeaderValue(r.headers, "X-Request-ID")
    ensures m.durationMs == r.elapsedNanos as real / 1000000.0
    ensures m.environment == "" && m.metadata.None?
  {
    Metric(service, r.path, r.httpMethod, r.status, r.elapsedNanos as real / 1000000.0,
           MetricSource("go", r.framework, r.version), "", HeaderValue(r.headers, "X-Request-ID"), None)
  }

  /** The completion log's metadata. */
  function RequestLogMetadata(r: Served): (m: map<string, Value>)
    ensures m.Keys == {"method", "path", "status_code", "duration_ms", "user_agent"}
    ensures m["method"] == VStr(r.httpMethod) && m["path"] == VStr(r.path) && m["status_code"] == VInt(r.status)
    ensures m["duration_ms"] == VInt(DurationMs(r.elapsedNanos))
    ensures m["user_agent"] == VStr(HeaderValue(r.headers, "User-Agent"))
  {
    map[
      "method" := VStr(r.httpMethod),
      "path" := VStr(r.path),
      "status_code" := VInt(r.status),
      "duration_ms" := VInt(DurationMs(r.elapsedNanos)),
      "user_agent" := VStr(HeaderValue(r.headers, "User-Agent"))]
  }

  /** "Request completed: " followed by the trace name of the request. */
  function RequestLogMessage(r: Served): (message: string)
    ensures message == "Request completed: " + TraceName(r.httpMethod, r.path)
  {
    "Request completed: " + r.httpMethod + " " + r.path
  }

  /** The requests one background task sends; which of them succeed does not change what is sent. */
  function TaskRequests(service: string, t: Task, r: Served): (sent: seq<Request>)
    // the metric already names the client's service, so SendMetric posts it unchanged
    ensures t.EmitMetric? ==> sent == [MetricRequest(RequestMetric(service, r))]
    // the completion log is taken on the request context: its ids are that context's carrier's
    ensures t.EmitLog? ==>
              sent == [LogRequest(NewEntry(service, r.ctx, LevelForStatus(r.status), RequestLogMessage(r),
                                           Some(RequestLogMetadata(r))))]
    // finishing only when traced, and then on the request context's carrier
    ensures t.EmitFinish? ==>
              if r.traced && GetTraceFromContext(r.ctx).Some?
              then sent == [EndSpanRequest(GetTraceFromContext(r.ctx).value.spanId),
                            EndTraceRequest(GetTraceFromContext(r.ctx).value.traceId)]
              else sent == []
  {
    match t
    case EmitMetric => [MetricRequest(WithServiceName(RequestMetric(service, r), service))]
    case EmitLog =>
      [LogRequest(NewEntry(service, r.ctx, LevelForStatus(r.status), RequestLogMessage(r), Some(RequestLogMetadata(r))))]
    case EmitFinish =>
      if r.traced then FinishSpanRequests(r.ctx) + FinishTraceRequests(r.ctx) else []
  }

  /** The requests of a sequence of tasks, run one after the other, where `of` gives each task's requests. */
  function Concat(schedule: seq<Task>, of: Task -> seq<Request>): seq<Request>
  {
    if schedule == [] then [] else of(schedule[0]) + Concat(schedule[1..], of)
  }

  /** What each background task of request `r` sends. */
  function TasksOf(service: string, r: Served): Task -> seq<Request>
  {
    t => TaskRequests(service, t, r)
  }

  /** The requests of the tasks of request `r`, run in the order of `schedule`. */
  function Emissions(service: string, schedule: seq<Task>, r: Served): seq<Request>
  {
    Concat(schedule, TasksOf(service, r))
  }

  lemma {:induction false} ConcatAppend(s1: seq<Task>, s2: seq<Task>, of: Task -> seq<Request>)
    ensures Concat(s1 + s2, of) == Concat(s1, of) + Concat(s2, of)
    decreases |s1|
  {
    if s1 == [] {
      assert s1 + s2 == s2;
    } else {
      assert (s1 + s2)[0] == s1[0] && (s1 + s2)[1..] == s1[1..] + s2;
      ConcatAppend(s1[1..], s2, of);
    }
  }

  /** Taking the same task out of two orders of the same tasks leaves two orders of the same tasks. */
  lemma RemoveMatching(s1: seq<Task>, s2: seq<Task>, i: nat)
    requires multiset(s1) == multiset(s2) && s1 != [] && i < |s2| && s2[i] == s1[0]
    ensures multiset(s1[1..]) == multiset(s2[..i] + s2[i + 1..])
  {
    assert s2 == s2[..i] + [s2[i]] + s2[i + 1..];
    assert s1 == [s1[0]] + s1[1..];
    assert multiset(s2) == multiset(s2[..i]) + multiset{s2[i]} + multiset(s2[i + 1..]);
    assert multiset(s1) == multiset{s1[0]} + multiset(s1[1..]);
    var rest := s2[..i] + s2[i + 1..];
    assert multiset(rest) == multiset(s2[..i]) + multiset(s2[i + 1..]);
    forall x
      ensures multiset(s1[1..])[x] == multiset(rest)[x]
    {
      assert multiset(s1)[x] == multiset{s1[0]}[x] + multiset(s1[1..])[x];
      assert multiset(s2)[x] == multiset{s1[0]}[x] + multiset(rest)[x];
    }
  }

  /** Two orders of the same tasks send the same requests, up to order. */
  lemma {:induction false} ConcatPermutation(s1: seq<Task>, s2: seq<Task>, of: Task -> seq<Request>)
    requires multiset(s1) == multiset(s2)
    ensures multiset(Concat(s1, of)) == multiset(Concat(s2, of))
    decreases |s1|
  {
    if s1 == [] {
      assert |s2| == |multiset(s2)| == 0;
    } else {
      var t := s1[0];
      assert t in multiset(s2);
      var i :| 0 <= i < |s2| && s2[i] == t;
      var before, after := s2[..i], s2[i + 1..];
      RemoveMatching(s1, s2, i);
      ConcatPermutation(s1[1..], before + after, of);
      assert s2 == before + [t] + after;
      ConcatAppend(before + [t], after, of);
      ConcatAppend(before, [t], of);
      ConcatAppend(before, after, of);
      assert [t][1..] == [];
      var e, eb, ea := of(t), Concat(before, of), Concat(after, of);
      assert Concat([t], of) == e;
      assert Concat(s2, of) == eb + e + ea;
      assert Concat(s1, of) == e + Concat(s1[1..], of);
      assert multiset(eb + e + ea) == multiset(e) + multiset(eb + ea);
    }
  }

  lemma ConcatOfThree(schedule: seq<Task>, of: Task -> seq<Request>)
    requires |schedule| == 3
    ensures Concat(schedule, of) == of(schedule[0]) + of(schedule[1]) + of(schedule[2])
  {
    assert schedule[1..][0] == schedule[1] && schedule[1..][1..][0] == schedule[2];
    assert schedule[1..][1..][1..] == [];
    assert Concat(schedule[1..][1..], of) == of(schedule[2]);
  }

  /**
   * Whatever order the scheduler picks, a request emits exactly one metric and one
   * completion log, and span and trace finishing only when StartTrace gave a carrier.
   */
  lemma EmissionsAnyOrder(service: string, schedule: seq<Task>, r: Served)
    requires IsSchedule(schedule)
    ensures multiset(Emissions(service, schedule, r)) ==
              multiset(TaskRequests(service, EmitMetric, r) + TaskRequests(service, EmitLog, r) +
                       TaskRequests(service, EmitFinish, r))
    ensures !r.traced ==> |Emissions(service, schedule, r)| == 2
  {
    var canonical := [EmitMetric, EmitLog, EmitFinish];
    var of := TasksOf(service, r);
    ConcatPermutation(schedule, canonical, of);
    ConcatOfThree(canonical, of);
    assert |Emissions(service, schedule, r)| == |multiset(Emissions(service, schedule, r))|;
  }

  /**
   * As written, when the trace is created but its root span is not, the carrier is
   * non-nil yet the request's context does not hold it: the finishing task runs on a
   * context without carrier and the new trace is never ended.
   */
  lemma PartialTraceNeverEnded(service: string, ctx: Context, name: string, script: seq<Reply>, at: nat,
                               schedule: seq<Task>, r: Served)
    requires GetTraceFromContext(ctx).None? && IsSchedule(schedule)
    requires CreatedId(ReplyAt(script, at)).Success? && CreatedId(ReplyAt(script, at + 1)).Failure?
    requires var st := StartTraceOutcome(service, ctx, name, script, at);
      r.ctx == (if st.err.None? then st.ctx else ctx) && r.traced == st.carrier.Some?
    ensures r.traced
    ensures forall q :: q in Emissions(service, schedule, r) ==> EndTraceTarget(q.path).None?
  {
    EmissionsAnyOrder(service, schedule, r);
    EndPathsRoundTrip("", "");
    var all := Emissions(service, schedule, r);
    forall q | q in all
      ensures EndTraceTarget(q.path).None?
    {
      assert q in multiset(all);
    }
  }

  /** The corrected finishing task: end what the returned carrier names, whatever the request's context holds. */
  function CarrierFinishRequests(carrier: Option<TraceContext>): (sent: seq<Request>)
    ensures carrier.None? <==> sent == []
    ensures carrier.Some? ==> sent[|sent| - 1] == EndTraceRequest(carrier.value.traceId)
    ensures carrier.Some? ==> (|sent| == 2 <==> carrier.value.spanId != "") && |sent| <= 2
    ensures carrier.Some? && |sent| == 2 ==> sent[0] == EndSpanRequest(carrier.value.spanId)
  {
    match carrier
    case None => []
    case Some(tc) => (if tc.spanId != "" then [EndSpanRequest(tc.spanId)] else []) + [EndTraceRequest(tc.traceId)]
  }

  /**
   * With the corrected finishing task, every trace StartTrace created is ended, by its
   * own id, and its root span is ended exactly when it was created.
   */
  lemma CarrierFinishEndsCreatedTrace(service: string, ctx: Context, name: string, script: seq<Reply>, at: nat)
    requires CreatedId(ReplyAt(script, at)).Success?
    ensures var st := StartTraceOutcome(service, ctx, name, script, at);
      var fin := CarrierFinishRequests(st.carrier);
      && EndTraceRequest(CreatedId(ReplyAt(script, at)).value) in fin
      && (forall q :: q in fin && EndSpanTarget(q.path).Some? ==>
            CreatedId(ReplyAt(script, at + 1)).Success? && q == EndSpanRequest(CreatedId(ReplyAt(script, at + 1)).value))
      && (CreatedId(ReplyAt(script, at + 1)).Success? && CreatedId(ReplyAt(script, at + 1)).value != "" ==>
            EndSpanRequest(CreatedId(ReplyAt(script, at + 1)).value) in fin)
  {
    EndPathsRoundTrip("", "");
  }

  /** The framework's per-request state the adapters read and replace. */
  class RequestScope {
    const httpMethod: string
    const path: string
    const headers: map<string, string>
    /** The request's context (Request.Context()); replaced when the trace starts. */
    var ctx: Context
    /** The framework's per-request store (Set/Get). */
    var keys: map<string, TraceContext>
    /** The response status the handler wrote (0 if none, for Echo). */
    var status: int

    constructor (httpMethod: string, path: string, headers: map<string, string>, ctx: Context)
      ensures this.httpMethod == httpMethod && this.path == path && this.headers == headers
      ensures this.ctx == ctx && keys == map[] && status == 0
    {
      this.httpMethod, this.path, this.headers := httpMethod, path, headers;
      this.ctx, keys, status := ctx, map[], 0;
    }
  }

  /** One background task (goinsight/middleware.go:30-73 and 103-146); its errors are dropped. */
  method RunTask(c: Client, t: Task, r: Served)
    modifies c`requests
    ensures c.requests == old(c.requests) + TaskRequests(c.serviceName, t, r)
  {
    match t
    case EmitMetric =>
      var _ := c.SendMetric(RequestMetric(c.serviceName, r));
    case EmitLog =>
      var level := LevelInfo;
      if r.status >= 400 {
        level := LevelError;
      } else if r.status >= 300 {
        level := LevelWarn;
      }
      var metadata := new Metadata(RequestLogMetadata(r));
      var _ := c.Log(r.ctx, level, RequestLogMessage(r), metadata);
    case EmitFinish =>
      if r.traced {
        var _ := c.FinishSpan(r.ctx);
        var _ := c.FinishTrace(r.ctx);
      }
  }

  /** The three tasks, each run once, in the scheduler's order. */
  method RunBackground(c: Client, schedule: seq<Task>, r: Served)
    requires IsSchedule(schedule)
    modifies c`requests
    ensures c.requests == old(c.requests) + Emissions(c.serviceName, schedule, r)
  {
    assert |schedule| == |multiset(schedule)| == 3;
    ConcatOfThree(schedule, TasksOf(c.serviceName, r));
    RunTask(c, schedule[0], r);
    RunTask(c, schedule[1], r);
    RunTask(c, schedule[2], r);
  }

  /** Trace start at request entry: the context and the store change only if StartTrace succeeded. */
  method BeginRequest(c: Client, scope: RequestScope) returns (carrier: Option<TraceContext>)
    modifies c`requests, scope`ctx, scope`keys
    ensures var st := StartTraceOutcome(c.serviceName, old(scope.ctx), TraceName(scope.httpMethod, scope.path),
                                         c.script, |old(c.requests)|);
      && carrier == st.carrier
      && c.requests == old(c.requests) + st.sent
      && (st.err.None? ==> scope.ctx == st.ctx && scope.keys == old(scope.keys)[StoreKey := st.carrier.value])
      && (st.err.Some? ==> scope.ctx == old(scope.ctx) && scope.keys == old(scope.keys))
  {
    var ctx, traceCtx, err := c.StartTrace(scope.ctx, TraceName(scope.httpMethod, scope.path));
    if err.None? {
      scope.ctx := ctx;
      scope.keys := scope.keys[StoreKey := traceCtx.value];
    }
    carrier := traceCtx;
  }

  /**
   * GinMiddleware on one request (goinsight/middleware.go:12-75); `next` stands for
   * ginCtx.Next() and gives the status the handlers wrote.
   */
  method GinMiddleware(c: Client, scope: RequestScope, next: Context -> int, version: string,
                       elapsedNanos: nat, schedule: seq<Task>)
    requires IsSchedule(schedule)
    modifies c`requests, scope`ctx, scope`keys, scope`status
    ensures var st := StartTraceOutcome(c.serviceName, old(scope.ctx), TraceName(scope.httpMethod, scope.path),
                                         c.script, |old(c.requests)|);
      && (st.err.None? ==> scope.ctx == st.ctx && scope.keys == old(scope.keys)[StoreKey := st.carrier.value])
      && (st.err.Some? ==> scope.ctx == old(scope.ctx) && scope.keys == old(scope.keys))
      && scope.status == next(scope.ctx)
      && c.requests == old(c.requests) + st.sent +
           Emissions(c.serviceName, schedule,
                     Served("gin", version, scope.httpMethod, scope.path, scope.headers, scope.status,
                            elapsedNanos, scope.ctx, st.carrier.Some?))
  {
    var carrier := BeginRequest(c, scope);
    scope.status := next(scope.ctx);
    var served := Served("gin", version, scope.httpMethod, scope.path, scope.headers, scope.status,
                         elapsedNanos, scope.ctx, carrier.Some?);
    RunBackground(c, schedule, served);
  }

  /** What an Echo handler does: the status it wrote (0 if none) and the error it returned. */
  datatype Handled = Handled(status: int, err: Option<Error>)

  /**
   * EchoMiddleware on one request (goinsight/middleware.go:78-151): as Gin's, except
   * that status 0 is reported as 200 and the handler's error is returned unchanged.
   */
  method EchoMiddleware(c: Client, scope: RequestScope, next: Context -> Handled, version: string,
                        elapsedNanos: nat, schedule: seq<Task>) returns (err: Option<Error>)
    requires IsSchedule(schedule)
    modifies c`requests, scope`ctx, scope`keys, scope`status
    ensures var st := StartTraceOutcome(c.serviceName, old(scope.ctx), TraceName(scope.httpMethod, scope.path),
                                         c.script, |old(c.requests)|);
      && (st.err.None? ==> scope.ctx == st.ctx && scope.keys == old(scope.keys)[StoreKey := st.carrier.value])
      && (st.err.Some? ==> scope.ctx == old(scope.ctx) && scope.keys == old(scope.keys))
      && scope.status == next(scope.ctx).status
      && err == next(scope.ctx).err
      && c.requests == old(c.requests) + st.sent +
           Emissions(c.serviceName, schedule,
                     Served("echo", version, scope.httpMethod, scope.path, scope.headers, EchoStatus(scope.status),
                            elapsedNanos, scope.ctx, st.carrier.Some?))
  {
    var carrier := BeginRequest(c, scope);
    var handled := next(scope.ctx);
    scope.status := handled.status;
    err := handled.err;
    var statusCode := scope.status;
    if statusCode == 0 {
      statusCode := 200;
    }
    var served := Served("echo", version, scope.httpMethod, scope.path, scope.headers, statusCode,
                         elapsedNanos, scope.ctx, carrier.Some?);
    RunBackground(c, schedule, served);
  }
}
