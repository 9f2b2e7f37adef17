/**
 * The trace/span lifecycle of goinsight/tracing.go as pure functions of the input
 * context and of the collector's replies. Each *Outcome function gives what the
 * operation returns and the requests it sends; the Client methods in module Telemetry
 * are proved to behave exactly so. Contexts are immutable values: deriving a context
 * wraps its parent, so an older context can never observe a newer carrier.
 */
module Tracing {
  import opened Wrappers
  import opened Models
  import opened Collector

  /** The context key of the carrier: a plain string in the source, not a private key type. */
  const TraceKey := "go-insight-trace"

  /** A value bound in a context: a carrier, or a value of some other type. */
  datatype Stored = Carrier(tc: TraceContext) | Foreign(tag: string)

  /** A request-scoped context: the background context, or a parent extended by one key/value pair. */
  datatype Context = Background | WithValue(parent: Context, key: string, val: Stored)

  /**
   * The carrier of a context: the innermost binding of TraceKey decides, and it yields a
   * carrier only if the bound value is one (the source's `.(*TraceContext)` assertion).
   */
  function GetTraceFromContext(ctx: Context): (found: Option<TraceContext>)
    // only a carrier that was bound under the key is ever found, and none without one
    ensures found.Some? ==> found.value in Carriers(ctx)
    ensures Carriers(ctx) == {} ==> found.None?
    // the innermost binding of the key decides: a value there that is not a carrier hides any outer one
    ensures ctx.WithValue? && ctx.key == TraceKey ==> found == (if ctx.val.Carrier? then Some(ctx.val.tc) else None)
  {
    match ctx
    case Background => None
    case WithValue(parent, key, val) =>
      if key == TraceKey then (if val.Carrier? then Some(val.tc) else None)
      else GetTraceFromContext(parent)
  }

  /** Every carrier bound under the trace key anywhere along the context's chain. */
  function Carriers(ctx: Context): set<TraceContext>
  {
    match ctx
    case Background => {}
    case WithValue(parent, key, val) =>
      (if key == TraceKey && val.Carrier? then {val.tc} else {}) + Carriers(parent)
  }

  /** context.WithValue(ctx, "go-insight-trace", tc): a new context whose carrier is tc, over ctx. */
  function Attach(ctx: Context, tc: TraceContext): (r: Context)
    ensures GetTraceFromContext(r) == Some(tc)
    ensures r.WithValue? && r.parent == ctx
  {
    WithValue(ctx, TraceKey, Carrier(tc))
  }

  /** Bindings under other keys do not hide the carrier of the parent. */
  lemma ForeignBindingTransparent(ctx: Context, key: string, val: Stored)
    requires key != TraceKey
    ensures GetTraceFromContext(WithValue(ctx, key, val)) == GetTraceFromContext(ctx)
  {
  }

  /** What StartTrace returns (context, carrier or nil, error or nil) and the requests it sends. */
  datatype TraceStart = TraceStart(ctx: Context, carrier: Option<TraceContext>, err: Option<Error>, sent: seq<Request>)

  /** What StartSpan returns (context, error or nil) and the requests it sends. */
  datatype SpanStart = SpanStart(ctx: Context, err: Option<Error>, sent: seq<Request>)

  /** The error of a call that only sends, and the requests it sends. */
  datatype Delivered = Delivered(err: Option<Error>, sent: seq<Request>)

  /**
   * StartTrace(ctx, operation) for a client of service `service`, whose first request is
   * answered by script reply `at` (goinsight/tracing.go:8-39).
   */
  function StartTraceOutcome(service: string, ctx: Context, operation: string, script: seq<Reply>, at: nat): (o: TraceStart)
    // the trace is always requested first, for this service
    ensures 1 <= |o.sent| <= 2 && o.sent[0] == TraceCreation(Trace("", service))
    // trace creation failed: original context, nil carrier, that error, and no span request
    ensures CreatedId(ReplyAt(script, at)).Failure? ==>
              o.ctx == ctx && o.carrier.None? && o.err == Some(CreatedId(ReplyAt(script, at)).error) && |o.sent| == 1
    // trace created: the root span request names that trace, this service and the operation, and no parent
    ensures CreatedId(ReplyAt(script, at)).Success? ==>
              |o.sent| == 2 &&
              o.sent[1] == SpanCreation(Span("", CreatedId(ReplyAt(script, at)).value, "", service, operation))
    // root span failed: original context, a carrier with the trace id and no span id, that error
    ensures CreatedId(ReplyAt(script, at)).Success? && CreatedId(ReplyAt(script, at + 1)).Failure? ==>
              o.ctx == ctx &&
              o.carrier == Some(TraceContext(CreatedId(ReplyAt(script, at)).value, "")) &&
              o.err == Some(CreatedId(ReplyAt(script, at + 1)).error)
    // both created: nil error, and the new context carries exactly the returned carrier {trace id, root span id}
    ensures CreatedId(ReplyAt(script, at)).Success? && CreatedId(ReplyAt(script, at + 1)).Success? ==>
              o.err.None? &&
              o.carrier == Some(TraceContext(CreatedId(ReplyAt(script, at)).value, CreatedId(ReplyAt(script, at + 1)).value)) &&
              o.ctx == Attach(ctx, o.carrier.value)
    ensures o.err.None? ==> o.carrier.Some? && GetTraceFromContext(o.ctx) == o.carrier
    ensures o.err.Some? ==> o.ctx == ctx
  {
    var traceRequest := TraceCreation(Trace("", service));
    var trace := CreatedId(ReplyAt(script, at));
    if trace.Failure? then
      TraceStart(ctx, None, Some(trace.error), [traceRequest])
    else
      var partial := TraceContext(trace.value, "");
      var spanRequest := SpanCreation(Span("", partial.traceId, "", service, operation));
      var span := CreatedId(ReplyAt(script, at + 1));
      if span.Failure? then
        TraceStart(ctx, Some(partial), Some(span.error), [traceRequest, spanRequest])
      else
        var rooted := partial.(spanId := span.value);
        TraceStart(Attach(ctx, rooted), Some(rooted), None, [traceRequest, spanRequest])
  }

  /** StartSpan(ctx, operation), its request answered by script reply `at` (goinsight/tracing.go:41-66). */
  function StartSpanOutcome(service: string, ctx: Context, operation: string, script: seq<Reply>, at: nat): (o: SpanStart)
    // no carrier: the same context, "no trace context found", and nothing sent
    ensures GetTraceFromContext(ctx).None? ==> o == SpanStart(ctx, Some(NoTraceContext), [])
    // a carrier: one span request in its trace whose parent is its current span
    ensures GetTraceFromContext(ctx).Some? ==>
              var tc := GetTraceFromContext(ctx).value;
              o.sent == [SpanCreation(Span("", tc.traceId, tc.spanId, service, operation))] &&
              (CreatedId(ReplyAt(script, at)).Failure? ==>
                 o.ctx == ctx && o.err == Some(CreatedId(ReplyAt(script, at)).error)) &&
              (CreatedId(ReplyAt(script, at)).Success? ==>
                 o.err.None? && o.ctx == Attach(ctx, TraceContext(tc.traceId, CreatedId(ReplyAt(script, at)).value)))
    ensures o.err.Some? ==> o.ctx == ctx
  {
    match GetTraceFromContext(ctx)
    case None => SpanStart(ctx, Some(NoTraceContext), [])
    case Some(tc) =>
      var request := SpanCreation(Span("", tc.traceId, tc.spanId, service, operation));
      var created := CreatedId(ReplyAt(script, at));
      if created.Failure? then SpanStart(ctx, Some(created.error), [request])
      else SpanStart(Attach(ctx, TraceContext(tc.traceId, created.value)), None, [request])
  }

  /** The requests FinishSpan(ctx) sends: one end request for the current span, or none without a carrier. */
  function FinishSpanRequests(ctx: Context): (sent: seq<Request>)
    ensures GetTraceFromContext(ctx).None? <==> sent == []
    ensures GetTraceFromContext(ctx).Some? ==> sent == [EndSpanRequest(GetTraceFromContext(ctx).value.spanId)]
  {
    match GetTraceFromContext(ctx)
    case None => []
    case Some(tc) => [EndSpanRequest(tc.spanId)]
  }

  /** The requests FinishTrace(ctx) sends: one end request for the trace, or none without a carrier. */
  function FinishTraceRequests(ctx: Context): (sent: seq<Request>)
    ensures GetTraceFromContext(ctx).None? <==> sent == []
    ensures GetTraceFromContext(ctx).Some? ==> sent == [EndTraceRequest(GetTraceFromContext(ctx).value.traceId)]
  {
    match GetTraceFromContext(ctx)
    case None => []
    case Some(tc) => [EndTraceRequest(tc.traceId)]
  }

  /** FinishSpan(ctx), its request answered by script reply `at` (goinsight/tracing.go:68-75). */
  function FinishSpanOutcome(ctx: Context, script: seq<Reply>, at: nat): (o: Delivered)
    ensures o.sent == FinishSpanRequests(ctx)
    ensures GetTraceFromContext(ctx).None? ==> o.err == Some(NoTraceContext)
    ensures GetTraceFromContext(ctx).Some? ==> o.err == Delivery(ReplyAt(script, at))
  {
    match GetTraceFromContext(ctx)
    case None => Delivered(Some(NoTraceContext), [])
    case Some(tc) => Delivered(Delivery(ReplyAt(script, at)), [EndSpanRequest(tc.spanId)])
  }

  /** FinishTrace(ctx), its request answered by script reply `at` (goinsight/tracing.go:77-84). */
  function FinishTraceOutcome(ctx: Context, script: seq<Reply>, at: nat): (o: Delivered)
    ensures o.sent == FinishTraceRequests(ctx)
    ensures GetTraceFromContext(ctx).None? ==> o.err == Some(NoTraceContext)
    ensures GetTraceFromContext(ctx).Some? ==> o.err == Delivery(ReplyAt(script, at))
  {
    match GetTraceFromContext(ctx)
    case None => Delivered(Some(NoTraceContext), [])
    case Some(tc) => Delivered(Delivery(ReplyAt(script, at)), [EndTraceRequest(tc.traceId)])
  }

  /** The contexts of a chain of nested StartSpan calls, ctxs[0] the start, and all requests sent. */
  datatype Nested = Nested(ctxs: seq<Context>, sent: seq<Request>)

  /**
   * StartSpan(ops[0]) on ctx, then StartSpan(ops[1]) on the context it returned, and so on:
   * how handler code nests spans by passing each returned context down.
   */
  function Nest(service: string, ctx: Context, ops: seq<string>, script: seq<Reply>, at: nat): (n: Nested)
    ensures |n.ctxs| == |ops| + 1 && n.ctxs[0] == ctx
    ensures GetTraceFromContext(ctx).Some? ==> |n.sent| == |ops|
    decreases |ops|
  {
    if ops == [] then Nested([ctx], [])
    else
      var s := StartSpanOutcome(service, ctx, ops[0], script, at);
      var rest := Nest(service, s.ctx, ops[1..], script, at + |s.sent|);
      Nested([ctx] + rest.ctxs, s.sent + rest.sent)
  }

  /** One level of a chain: the first StartSpan, then the chain of the rest on the context it returned. */
  lemma NestUnfold(service: string, ctx: Context, ops: seq<string>, script: seq<Reply>, at: nat)
    requires ops != []
    ensures var s := StartSpanOutcome(service, ctx, ops[0], script, at);
      var rest := Nest(service, s.ctx, ops[1..], script, at + |s.sent|);
      Nest(service, ctx, ops, script, at) == Nested([ctx] + rest.ctxs, s.sent + rest.sent)
  {
  }

  /** Under a carrier, StartSpan's context keeps a carrier of the same trace. */
  lemma StartSpanKeepsTrace(service: string, ctx: Context, operation: string, script: seq<Reply>, at: nat,
                            tc: TraceContext) returns (next: TraceContext)
    requires GetTraceFromContext(ctx) == Some(tc)
    ensures GetTraceFromContext(StartSpanOutcome(service, ctx, operation, script, at).ctx) == Some(next)
    ensures next.traceId == tc.traceId
  {
    next := GetTraceFromContext(StartSpanOutcome(service, ctx, operation, script, at).ctx).value;
  }

  /** Under a carrier, level k + 1 of a chain is level k of the chain that starts at the first span's context. */
  lemma NestShift(service: string, ctx: Context, ops: seq<string>, script: seq<Reply>, at: nat, tc: TraceContext)
    requires GetTraceFromContext(ctx) == Some(tc) && ops != []
    ensures var s := StartSpanOutcome(service, ctx, ops[0], script, at);
      var rest := Nest(service, s.ctx, ops[1..], script, at + 1);
      var n := Nest(service, ctx, ops, script, at);
      && |s.sent| == 1 && n.ctxs[1] == s.ctx && n.sent[0] == s.sent[0]
      && (forall k :: 0 <= k < |rest.ctxs| ==> n.ctxs[k + 1] == rest.ctxs[k])
      && (forall k :: 0 <= k < |rest.sent| ==> n.sent[k + 1] == rest.sent[k])
  {
    NestUnfold(service, ctx, ops, script, at);
  }

  /**
   * Level i of a chain n of nested spans in trace traceId: the level's context carries the
   * trace, its span request names the level's current span as parent, and level i + 1
   * carries the id the collector returned for that request (or is level i again when
   * creation failed).
   */
  ghost predicate LevelFacts(service: string, n: Nested, ops: seq<string>, script: seq<Reply>, at: nat,
                             traceId: string, i: nat)
  {
    && i < |ops| && i < |n.sent| && i + 1 < |n.ctxs|
    && GetTraceFromContext(n.ctxs[i]).Some? && GetTraceFromContext(n.ctxs[i]).value.traceId == traceId
    && n.sent[i] == SpanCreation(Span("", traceId, GetTraceFromContext(n.ctxs[i]).value.spanId, service, ops[i]))
    && n.ctxs[i + 1] == (if CreatedId(ReplyAt(script, at + i)).Success?
                         then Attach(n.ctxs[i], TraceContext(traceId, CreatedId(ReplyAt(script, at + i)).value))
                         else n.ctxs[i])
  }

  /** Level 0 of a chain under a carrier is the first StartSpan. */
  lemma NestFirstLevel(service: string, ctx: Context, ops: seq<string>, script: seq<Reply>, at: nat, tc: TraceContext)
    requires GetTraceFromContext(ctx) == Some(tc) && 0 < |ops|
    ensures LevelFacts(service, Nest(service, ctx, ops, script, at), ops, script, at, tc.traceId, 0)
  {
    var s := StartSpanOutcome(service, ctx, ops[0], script, at);
    NestShift(service, ctx, ops, script, at, tc);
    if CreatedId(ReplyAt(script, at)).Success? {
      assert s.ctx == Attach(ctx, TraceContext(tc.traceId, CreatedId(ReplyAt(script, at)).value));
    } else {
      assert s.ctx == ctx;
    }
  }

  /** Level i > 0 of a chain is level i - 1 of the chain that starts at the first span's context. */
  lemma NestNextLevel(service: string, ctx: Context, ops: seq<string>, script: seq<Reply>, at: nat,
                      tc: TraceContext, i: nat)
    requires GetTraceFromContext(ctx) == Some(tc) && 0 < i < |ops|
    requires LevelFacts(service, Nest(service, StartSpanOutcome(service, ctx, ops[0], script, at).ctx, ops[1..], script, at + 1),
                        ops[1..], script, at + 1, tc.traceId, i - 1)
    ensures LevelFacts(service, Nest(service, ctx, ops, script, at), ops, script, at, tc.traceId, i)
  {
    var s := StartSpanOutcome(service, ctx, ops[0], script, at);
    var rest := Nest(service, s.ctx, ops[1..], script, at + 1);
    var n := Nest(service, ctx, ops, script, at);
    NestShift(service, ctx, ops, script, at, tc);
    var j, k := i - 1, at + 1;
    assert k + j == at + i && j + 1 == i;
    assert n.sent[i] == rest.sent[j] && n.ctxs[i] == rest.ctxs[j] && n.ctxs[i + 1] == rest.ctxs[j + 1];
    assert ops[i] == ops[1..][j];
  }

  /** Every level of a chain under a carrier satisfies LevelFacts in the carrier's trace. */
  lemma {:induction false} NestLevel(service: string, ctx: Context, ops: seq<string>, script: seq<Reply>, at: nat,
                                     tc: TraceContext, i: nat)
    requires GetTraceFromContext(ctx) == Some(tc) && i < |ops|
    ensures LevelFacts(service, Nest(service, ctx, ops, script, at), ops, script, at, tc.traceId, i)
    decreases i
  {
    if i == 0 {
      NestFirstLevel(service, ctx, ops, script, at, tc);
    } else {
      var tc' := StartSpanKeepsTrace(service, ctx, ops[0], script, at, tc);
      NestLevel(service, StartSpanOutcome(service, ctx, ops[0], script, at).ctx, ops[1..], script, at + 1, tc', i - 1);
      NestNextLevel(service, ctx, ops, script, at, tc, i);
    }
  }

  /**
   * Parent/child linkage is exact along any chain of nested spans under a carrier: every
   * level keeps the trace id, the span request made at level i names the current span
   * of level i as parent, and level i + 1 carries the id the collector returned for that
   * request (or is level i again when creation failed).
   */
  lemma NestLinkage(service: string, ctx: Context, ops: seq<string>, script: seq<Reply>, at: nat, tc: TraceContext)
    requires GetTraceFromContext(ctx) == Some(tc)
    ensures var n := Nest(service, ctx, ops, script, at);
      && |n.sent| == |ops|
      && (forall i :: 0 <= i < |n.ctxs| ==>
            GetTraceFromContext(n.ctxs[i]).Some? && GetTraceFromContext(n.ctxs[i]).value.traceId == tc.traceId)
      && (forall i :: 0 <= i < |ops| ==>
            n.sent[i] == SpanCreation(Span("", tc.traceId, GetTraceFromContext(n.ctxs[i]).value.spanId, service, ops[i])))
      && (forall i :: 0 <= i < |ops| ==>
            n.ctxs[i + 1] == (if CreatedId(ReplyAt(script, at + i)).Success?
                              then Attach(n.ctxs[i], TraceContext(tc.traceId, CreatedId(ReplyAt(script, at + i)).value))
                              else n.ctxs[i]))
  {
    var n := Nest(service, ctx, ops, script, at);
    forall i | 0 <= i < |ops|
      ensures GetTraceFromContext(n.ctxs[i]).Some?
      ensures n.sent[i] == SpanCreation(Span("", tc.traceId, GetTraceFromContext(n.ctxs[i]).value.spanId, service, ops[i]))
      ensures n.ctxs[i + 1] == (if CreatedId(ReplyAt(script, at + i)).Success?
                                then Attach(n.ctxs[i], TraceContext(tc.traceId, CreatedId(ReplyAt(script, at + i)).value))
                                else n.ctxs[i])
    {
      NestLevel(service, ctx, ops, script, at, tc, i);
    }
    forall i | 0 <= i < |n.ctxs|
      ensures GetTraceFromContext(n.ctxs[i]).Some? && GetTraceFromContext(n.ctxs[i]).value.traceId == tc.traceId
    {
      if i < |ops| {
        NestLevel(service, ctx, ops, script, at, tc, i);
      } else if i > 0 {
        NestLevel(service, ctx, ops, script, at, tc, i - 1);
      }
    }
  }

  /**
   * Finishing a nested context closes the span the collector created for it, and
   * finishing the trace from any level closes the one trace: the ids come from the
   * matching create calls, not from the order calls are made in.
   */
  lemma FinishTargetsCreatedIds(service: string, ctx: Context, ops: seq<string>, script: seq<Reply>, at: nat, tc: TraceContext, i: nat)
    requires GetTraceFromContext(ctx) == Some(tc)
    requires i < |ops| && CreatedId(ReplyAt(script, at + i)).Success?
    ensures var n := Nest(service, ctx, ops, script, at);
      && FinishSpanRequests(n.ctxs[i + 1]) == [EndSpanRequest(CreatedId(ReplyAt(script, at + i)).value)]
      && FinishTraceRequests(n.ctxs[i + 1]) == [EndTraceRequest(tc.traceId)]
  {
    NestLinkage(service, ctx, ops, script, at, tc);
    var n := Nest(service, ctx, ops, script, at);
    assert n.ctxs[i + 1] == Attach(n.ctxs[i], TraceContext(tc.traceId, CreatedId(ReplyAt(script, at + i)).value));
  }

  /** A context never given a carrier stays without one: no span is created and nothing is sent. */
  lemma {:induction false} NestUntraced(service: string, ctx: Context, ops: seq<string>, script: seq<Reply>, at: nat)
    requires GetTraceFromContext(ctx).None?
    ensures var n := Nest(service, ctx, ops, script, at);
      n.sent == [] && forall i :: 0 <= i < |n.ctxs| ==> n.ctxs[i] == ctx
    decreases |ops|
  {
    if ops != [] {
      NestUntraced(service, ctx, ops[1..], script, at);
    }
  }

  /**
   * The scenario of a collector that returns trace "t1" and span "s1", then span "s2":
   * StartTrace yields {t1, s1}; StartSpan on that context yields {t1, s2} and its
   * request names "s1" as parent; a 500 on the root span leaves the original context.
   */
  lemma EndToEndScenario(service: string, ctx: Context)
    requires GetTraceFromContext(ctx).None?
    ensures var script := [Http(200, Json(Some("t1"))), Http(201, Json(Some("s1"))), Http(200, Json(Some("s2")))];
      var t := StartTraceOutcome(service, ctx, "op", script, 0);
      var s := StartSpanOutcome(service, t.ctx, "child", script, 2);
      && t.err.None? && t.carrier == Some(TraceContext("t1", "s1"))
      && s.err.None? && GetTraceFromContext(s.ctx) == Some(TraceContext("t1", "s2"))
      && s.sent[0].payload.span.parentId == "s1"
      && GetTraceFromContext(t.ctx) == Some(TraceContext("t1", "s1"))
    ensures var failing := [Http(200, Json(Some("t1"))), Http(500, Json(None))];
      var t := StartTraceOutcome(service, ctx, "op", failing, 0);
      t.err == Some(StatusFailed(500)) && t.ctx == ctx && t.carrier == Some(TraceContext("t1", ""))
  {
  }
}
