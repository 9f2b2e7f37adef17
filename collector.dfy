/**
 * The collector as the SDK sees it (goinsight/client.go:115-184): the requests it is sent,
 * the replies it gives, the rule that turns a reply into success or an error, and the
 * mapping from operations to endpoint paths. The collector itself is a stub: its replies
 * are a script, and the k-th request the client sends is answered by the k-th reply.
 */
module Collector {
  import opened Wrappers
  import opened Models

  /** A reply body: JSON whose "id" member is a string or not, or something that is not JSON. */
  datatype Body = Json(id: Option<string>) | NotJson(cause: string)

  /** A reply: the round trip failed (unreachable, timed out), or an HTTP status and a body. */
  datatype Reply = NoReply(cause: string) | Http(status: int, body: Body)

  /** The JSON body of a request; the two finish calls send none. */
  datatype Payload =
    | NoPayload
    | LogPayload(entry: LogEntry)
    | MetricPayload(metric: Metric)
    | TracePayload(trace: Trace)
    | SpanPayload(span: Span)

  /** One request as the collector receives it; the base URL and the API-key header are the same for all. */
  datatype Request = Request(httpMethod: string, path: string, payload: Payload)

  /** What the transport hands back on success: nothing, or the decoded reply's "id" member. */
  datatype Response = NoContent | Decoded(id: Option<string>)

  /** The stub's answer to the k-th request: an unscripted request finds the collector unreachable. */
  function ReplyAt(script: seq<Reply>, k: nat): (r: Reply)
    ensures k < |script| ==> r == script[k]
    ensures k >= |script| ==> r.NoReply?
  {
    if k < |script| then script[k] else NoReply("no reply scripted")
  }

  predicate IsSuccessStatus(status: int)
  {
    200 <= status < 300
  }

  /**
   * The outcome of one round trip. `decode` says whether the caller passed a response
   * target, which only the two create calls do; only then is the body looked at.
   */
  function Transport(reply: Reply, decode: bool): (r: Result<Response, Error>)
    ensures r.Success? <==> reply.Http? && IsSuccessStatus(reply.status) && (decode ==> reply.body.Json?)
    ensures reply.NoReply? ==> r == Failure(SendFailed(reply.cause))
    ensures reply.Http? && !IsSuccessStatus(reply.status) ==> r == Failure(StatusFailed(reply.status))
    ensures r.Success? && !decode ==> r.value == NoContent
    ensures r.Success? && decode ==> r.value == Decoded(reply.body.id)
  {
    match reply
    case NoReply(cause) => Failure(SendFailed(cause))
    case Http(status, body) =>
      if status < 200 || status >= 300 then Failure(StatusFailed(status))
      else if !decode then Success(NoContent)
      else
        match body
        case Json(id) => Success(Decoded(id))
        case NotJson(cause) => Failure(DecodeFailed(cause))
  }

  /** Calls without a response target never read the body: only the status decides. */
  lemma UndecodedIgnoresBody(status: int, b1: Body, b2: Body)
    ensures Transport(Http(status, b1), false) == Transport(Http(status, b2), false)
    ensures Transport(Http(status, b1), false).Success? <==> IsSuccessStatus(status)
  {
  }

  /** The error of a call that sends and expects no body (sendRequest). */
  function Delivery(reply: Reply): (err: Option<Error>)
    ensures err.None? <==> reply.Http? && IsSuccessStatus(reply.status)
    ensures reply.NoReply? ==> err == Some(SendFailed(reply.cause))
    ensures reply.Http? && !IsSuccessStatus(reply.status) ==> err == Some(StatusFailed(reply.status))
  {
    match Transport(reply, false)
    case Success(_) => None
    case Failure(e) => Some(e)
  }

  /**
   * The id a create call (sendTrace, sendSpan) obtains: the reply must succeed, decode,
   * and carry a string "id". The source's type assertion panics on a missing id; here
   * that is the error MissingId.
   */
  function CreatedId(reply: Reply): (r: Result<string, Error>)
    ensures r.Success? <==> reply.Http? && IsSuccessStatus(reply.status) && reply.body.Json? && reply.body.id.Some?
    ensures r.Success? ==> r.value == reply.body.id.value
    ensures reply.NoReply? ==> r == Failure(SendFailed(reply.cause))
    ensures reply.Http? && !IsSuccessStatus(reply.status) ==> r == Failure(StatusFailed(reply.status))
  {
    match Transport(reply, true)
    case Failure(e) => Failure(e)
    case Success(resp) => ResponseId(resp)
  }

  /** `resp["id"].(string)` on a decoded create reply; a missing or non-string id is MissingId. */
  function ResponseId(resp: Response): (r: Result<string, Error>)
    ensures r.Success? <==> resp.Decoded? && resp.id.Some?
    ensures r.Success? ==> r.value == resp.id.value
  {
    if resp.Decoded? && resp.id.Some? then Success(resp.id.value) else Failure(MissingId)
  }

  const Post := "POST"
  const LogsPath := "/logs"
  const MetricsPath := "/metrics"
  const TracesPath := "/traces"
  const SpansPath := "/spans"

  function EndSpanPath(spanId: string): string
  {
    "/spans/" + spanId + "/end"
  }

  function EndTracePath(traceId: string): string
  {
    "/traces/" + traceId + "/end"
  }

  /**
   * The span id a finish-span path names, read back from the string: EndSpanPath must
   * be its inverse, or the path names a span other than the one meant. The id is put
   * into the path unescaped, so this is what an HTTP router reads only for ids without
   * URL-special characters ('/', '?', '#', '%' and control characters).
   */
  function EndSpanTarget(path: string): (r: Option<string>)
    ensures r.Some? ==> EndSpanPath(r.value) == path
  {
    if |path| >= 11 && path[..7] == "/spans/" && path[|path| - 4..] == "/end"
    then
      assert path == path[..7] + path[7..|path| - 4] + path[|path| - 4..];
      Some(path[7..|path| - 4])
    else None
  }

  /** The trace id a finish-trace path names, read back from the string (same caveat as EndSpanTarget). */
  function EndTraceTarget(path: string): (r: Option<string>)
    ensures r.Some? ==> EndTracePath(r.value) == path
  {
    if |path| >= 12 && path[..8] == "/traces/" && path[|path| - 4..] == "/end"
    then
      assert path == path[..8] + path[8..|path| - 4] + path[|path| - 4..];
      Some(path[8..|path| - 4])
    else None
  }

  /**
   * As strings, the finish paths name exactly the id they were built from, and no finish path is
   * mistaken for another endpoint: a span end never reads as a trace end or vice versa,
   * and the four create/emit paths are neither.
   */
  lemma EndPathsRoundTrip(spanId: string, traceId: string)
    ensures EndSpanTarget(EndSpanPath(spanId)) == Some(spanId)
    ensures EndTraceTarget(EndTracePath(traceId)) == Some(traceId)
    ensures EndSpanTarget(EndTracePath(traceId)).None?
    ensures EndTraceTarget(EndSpanPath(spanId)).None?
    ensures forall p :: p in {LogsPath, MetricsPath, TracesPath, SpansPath} ==>
              EndSpanTarget(p).None? && EndTraceTarget(p).None?
  {
    var sp := EndSpanPath(spanId);
    assert sp[..7] == "/spans/" && sp[|sp| - 4..] == "/end" && sp[7..|sp| - 4] == spanId;
    var tp := EndTracePath(traceId);
    assert tp[..8] == "/traces/" && tp[|tp| - 4..] == "/end" && tp[8..|tp| - 4] == traceId;
    assert tp[..7][1] == 't';
    assert sp[..8][1] == 's';
  }

  /** The requests of sendLog, sendMetric, sendTrace, sendSpan, endSpan and endTrace. */
  function LogRequest(entry: LogEntry): Request
  {
    Request(Post, LogsPath, LogPayload(entry))
  }

  function MetricRequest(metric: Metric): Request
  {
    Request(Post, MetricsPath, MetricPayload(metric))
  }

  function TraceCreation(trace: Trace): Request
  {
    Request(Post, TracesPath, TracePayload(trace))
  }

  function SpanCreation(span: Span): Request
  {
    Request(Post, SpansPath, SpanPayload(span))
  }

  function EndSpanRequest(spanId: string): (r: Request)
    ensures r.httpMethod == Post && EndSpanTarget(r.path) == Some(spanId) && r.payload.NoPayload?
  {
    EndPathsRoundTrip(spanId, "");
    Request(Post, EndSpanPath(spanId), NoPayload)
  }

  function EndTraceRequest(traceId: string): (r: Request)
    ensures r.httpMethod == Post && EndTraceTarget(r.path) == Some(traceId) && r.payload.NoPayload?
  {
    EndPathsRoundTrip("", traceId);
    Request(Post, EndTracePath(traceId), NoPayload)
  }
}
