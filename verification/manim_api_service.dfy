/**
 * The job-orchestration client: request validation, transport-error
 * translation, the status poller, the generate-then-poll workflow and the
 * batch delete.
 *
 * The network is abstracted: every transport call is answered by one
 * `Outcome`, given as a parameter, and every operation reports, beside how
 * it settles, the requests it handed to the transport (so "no transport
 * call" is `sent == []`). The caller's abort signal is a `seq<bool>`: entry
 * `k` is what `signal.aborted` reads at the poller's `k`-th check point.
 */
module ManimApi {
  import opened JsValue
  import opened ApiUtils
  import opened ApiConfig

  /** How the transport answers one request. */
  datatype Outcome =
    | Replied(response: HttpResponse)     // an HTTP response, OK or not
    | Aborted                             // the request's abort signal fired
    | NetworkFailure(message: string)     // `fetch` rejects with a TypeError

  datatype HttpMethod = GET | POST | DELETE

  /** A request handed to the transport; `body` is undefined when none is sent. */
  datatype Request = Request(verb: HttpMethod, url: string, body: Value)

  /** How an operation settles, and the requests it issued, in order. */
  datatype Call<T> = Call(result: Result<T>, sent: seq<Request>)

  /** The message of the `AbortError` that `fetch` rejects with. */
  const ABORT_MESSAGE: string := "The operation was aborted."

  /** `fetch(url, options)` on its own: the response, or the error it rejects with. */
  function Fetch(reply: Outcome): (r: Result<HttpResponse>)
    ensures r.Ok? <==> reply.Replied?
    ensures r.Ok? ==> r.value == reply.response
  {
    match reply
    case Replied(resp) => Ok(resp)
    case Aborted => Err(NativeError("AbortError", ABORT_MESSAGE))
    case NetworkFailure(msg) => Err(NativeError("TypeError", msg))
  }

  /**
   * `fetchWithTimeout`: one transport call, its response translated by
   * `handleApiResponse`; whatever is thrown named `AbortError` becomes
   * `ApiError('Request timeout', 408)`, anything else is rethrown as is.
   * So nothing it rejects with is an `AbortError`.
   */
  function FetchWithTimeout(req: Request, reply: Outcome): (c: Call<Value>)
    ensures c.sent == [req]
    ensures reply.Aborted? ==> c.result == Err(NewApiError("Request timeout", 408))
    ensures reply.NetworkFailure? ==> c.result == Err(NativeError("TypeError", reply.message))
    ensures reply.Replied? ==> c.result == HandleApiResponse(reply.response)
    ensures c.result.Err? ==> c.result.error.Name() != "AbortError"
  {
    var attempt := match Fetch(reply)
      case Ok(resp) => HandleApiResponse(resp)
      case Err(e) => Err(e);
    var r := match attempt
      case Ok(v) => Ok(v)
      case Err(e) => if e.Name() == "AbortError" then Err(NewApiError("Request timeout", 408)) else Err(e);
    Call(r, [req])
  }

  /** The message prefix of a wrapped error: `Failed to <operation>: ` */
  function FailurePrefix(operation: string): string {
    "Failed to " + operation + ": "
  }

  /** `new ApiError(\`Failed to <operation>: ${error.message}\`, error.status || 500)` */
  function Wrap(operation: string, e: Error): Error {
    NewApiError(FailurePrefix(operation) + e.message, e.StatusOr500())
  }

  /**
   * How a wrapped operation settles for each transport outcome: an OK
   * response with a JSON body yields that body; every failure becomes an
   * `ApiError` named after the operation that keeps the response's status
   * (500 when there is none), except an abort, which is 408.
   */
  predicate SettlesAs(operation: string, reply: Outcome, r: Result<Value>) {
    var prefix := FailurePrefix(operation);
    match reply
    case Replied(resp) =>
      if !resp.IsOk() then
        r == Err(NewApiError(prefix + ErrorMessage(resp), if resp.status != 0 then resp.status else 500))
      else if resp.body.Malformed? then
        r == Err(NewApiError(prefix + resp.body.reason, 500))
      else
        r == Ok(resp.body.value)
    case Aborted => r == Err(NewApiError(prefix + "Request timeout", 408))
    case NetworkFailure(msg) => r == Err(NewApiError(prefix + msg, 500))
  }

  /** The `try { fetchWithTimeout } catch { throw wrapped }` shared by the read and delete operations. */
  function WrappedFetch(operation: string, req: Request, reply: Outcome): (c: Call<Value>)
    ensures c.sent == [req]
    ensures SettlesAs(operation, reply, c.result)
  {
    var f := FetchWithTimeout(req, reply);
    Call(if f.result.Ok? then f.result else Err(Wrap(operation, f.result.error)), f.sent)
  }

  /** `getApiStatus`: passes the base URL as the endpoint, which `createApiUrl` appends to the base URL. */
  function GetApiStatus(base: string, reply: Outcome): (c: Call<Value>)
    ensures c.sent == [Request(GET, base + base, Undefined)]
    ensures SettlesAs("get API status", reply, c.result)
  {
    WrappedFetch("get API status", Request(GET, CreateApiUrl(base, base), Undefined), reply)
  }

  /** `getAiStatus` */
  function GetAiStatus(base: string, reply: Outcome): (c: Call<Value>)
    ensures c.sent == [Request(GET, base + "/ai-status", Undefined)]
    ensures SettlesAs("get AI status", reply, c.result)
  {
    WrappedFetch("get AI status", Request(GET, CreateApiUrl(base, "/ai-status"), Undefined), reply)
  }

  // ---------------------------------------------------------------------------
  // Job submission

  /** The arguments of `generateVideo`; a field not given is `Undefined`. */
  datatype GenerateParams = GenerateParams(prompt: Value, quality: Value, useAi: Value)

  /** `quality = QUALITY_OPTIONS.MEDIUM` */
  function EffectiveQuality(p: GenerateParams): Value {
    if p.quality.Undefined? then Str(QUALITY_MEDIUM) else p.quality
  }

  /** `useAi = true` */
  function EffectiveUseAi(p: GenerateParams): Value {
    if p.useAi.Undefined? then Bool(true) else p.useAi
  }

  /** `Object.values(QUALITY_OPTIONS).includes(quality)` */
  predicate IsQualityOption(q: Value) {
    q.Str? && q.s in QUALITY_OPTIONS
  }

  /**
   * The checks `generateVideo` makes before any network call, and the body
   * it then sends. A prompt that is truthy but not a string has no `trim`
   * method: calling it throws a TypeError.
   */
  function PrepareGeneration(p: GenerateParams): (r: Result<Value>)
    ensures r.Ok? ==> p.prompt.Str? && Trim(p.prompt.s) != [] && IsQualityOption(EffectiveQuality(p))
    ensures r.Ok? ==> r.value == Obj(map["prompt" := Str(Trim(p.prompt.s)),
                                         "quality" := EffectiveQuality(p),
                                         "use_ai" := EffectiveUseAi(p)])
    ensures r.Err? && r.error.ApiError? ==> r.error.status == 400
  {
    if !Truthy(p.prompt) then Err(NewApiError("Prompt is required", 400))
    else if !p.prompt.Str? then Err(NativeError("TypeError", "prompt.trim is not a function"))
    else if |Trim(p.prompt.s)| == 0 then Err(NewApiError("Prompt is required", 400))
    else
      var quality := EffectiveQuality(p);
      if !IsQualityOption(quality) then Err(NewApiError("Invalid quality option: " + ToJsString(quality), 400))
      else Ok(Obj(map["prompt" := Str(Trim(p.prompt.s)), "quality" := quality, "use_ai" := EffectiveUseAi(p)]))
  }

  /**
   * The catch of `generateVideo`: an `AbortError` would become a 499
   * cancellation, anything else is wrapped.
   */
  function CatchGeneration(e: Error): Error {
    if e.Name() == "AbortError" then NewApiError("Video generation was cancelled", 499)
    else Wrap("generate video", e)
  }

  /**
   * `generateVideo`: a rejected request issues no transport call; an
   * accepted one issues exactly one POST of the prepared body and settles as
   * a wrapped operation does.
   */
  function GenerateVideo(base: string, p: GenerateParams, reply: Outcome): (c: Call<Value>)
    ensures PrepareGeneration(p).Err? ==> c == Call(PrepareGeneration(p), [])
    ensures PrepareGeneration(p).Ok? ==>
      c.sent == [Request(POST, base + "/generate-video", PrepareGeneration(p).value)]
    ensures PrepareGeneration(p).Ok? ==> SettlesAs("generate video", reply, c.result)
  {
    match PrepareGeneration(p)
    case Err(e) => Call(Err(e), [])
    case Ok(body) =>
      var f := FetchWithTimeout(Request(POST, CreateApiUrl(base, "/generate-video"), body), reply);
      Call(if f.result.Ok? then f.result else Err(CatchGeneration(f.result.error)), f.sent)
  }

  /**
   * Validation: `generateVideo` issues no transport call exactly when the
   * prompt is missing, not a string, or blank, or the quality is not an
   * option; a missing or blank prompt and a bad quality reject with 400.
   */
  lemma GenerateVideoValidation(base: string, p: GenerateParams, reply: Outcome)
    ensures GenerateVideo(base, p, reply).sent == [] <==>
      !Truthy(p.prompt) || !p.prompt.Str? || AllWhitespace(p.prompt.s) || !IsQualityOption(EffectiveQuality(p))
    ensures !Truthy(p.prompt) || (p.prompt.Str? && AllWhitespace(p.prompt.s)) ==>
      GenerateVideo(base, p, reply).result == Err(NewApiError("Prompt is required", 400))
    ensures Truthy(p.prompt) && !p.prompt.Str? ==>
      GenerateVideo(base, p, reply).result.Err? && GenerateVideo(base, p, reply).result.error.NativeError?
      && GenerateVideo(base, p, reply).result.error.name == "TypeError"
    ensures p.prompt.Str? && !AllWhitespace(p.prompt.s) && !IsQualityOption(EffectiveQuality(p)) ==>
      GenerateVideo(base, p, reply).result
        == Err(NewApiError("Invalid quality option: " + ToJsString(EffectiveQuality(p)), 400))
  {
    if p.prompt.Str? {
      TrimEmptyIffBlank(p.prompt.s);
    }
  }

  /**
   * The body of an accepted request carries the trimmed prompt (nonempty,
   * with no whitespace at either end), the quality (`medium` when none is
   * given) and `use_ai` equal to `useAi` (`true` when none is given).
   */
  lemma GenerateVideoBody(base: string, p: GenerateParams, reply: Outcome)
    requires GenerateVideo(base, p, reply).sent != []
    ensures p.prompt.Str? && IsQualityOption(EffectiveQuality(p))
    ensures GenerateVideo(base, p, reply).sent[0].body
      == Obj(map["prompt" := Str(Trim(p.prompt.s)), "quality" := EffectiveQuality(p), "use_ai" := EffectiveUseAi(p)])
    ensures var t := Trim(p.prompt.s);
      t != [] && !IsWhitespace(t[0]) && !IsWhitespace(t[|t| - 1])
  {
    var i, j := TrimIsInnerSlice(p.prompt.s);
  }

  /**
   * A submission cut off by an abort surfaces as 408, never as the 499
   * "cancelled" of `generateVideo`'s catch: that branch cannot fire, and a
   * rejection with status 499 can only carry a 499 sent by the server.
   */
  lemma GenerateVideoAbortIsTimeout(base: string, p: GenerateParams, reply: Outcome)
    ensures PrepareGeneration(p).Ok? && reply.Aborted? ==>
      GenerateVideo(base, p, reply).result == Err(NewApiError(FailurePrefix("generate video") + "Request timeout", 408))
    ensures var r := GenerateVideo(base, p, reply).result;
      r.Err? && r.error.ApiError? && r.error.status == 499 ==> reply.Replied? && reply.response.status == 499
  {
  }

  // ---------------------------------------------------------------------------
  // Single-job operations

  /** The rejection of an operation on a job given a falsy id. */
  const MISSING_ID: Error := NewApiError("Video ID is required", 400)

  /** `getVideoStatus`: a missing id rejects with 400 before any call. */
  function GetVideoStatus(base: string, videoId: Value, reply: Outcome): (c: Call<Value>)
    ensures !Truthy(videoId) ==> c == Call(Err(MISSING_ID), [])
    ensures Truthy(videoId) ==> c.sent == [StatusQuery(base, videoId)]
    ensures Truthy(videoId) ==> SettlesAs("get video status", reply, c.result)
  {
    if !Truthy(videoId) then Call(Err(MISSING_ID), [])
    else WrappedFetch("get video status", StatusQuery(base, videoId), reply)
  }

  /** `deleteVideo`: a missing id rejects with 400 before any call. */
  function DeleteVideo(base: string, videoId: Value, reply: Outcome): (c: Call<Value>)
    ensures !Truthy(videoId) ==> c == Call(Err(MISSING_ID), [])
    ensures Truthy(videoId) ==> c.sent == [Request(DELETE, base + ("/delete/" + ToJsString(videoId)), Undefined)]
    ensures Truthy(videoId) ==> SettlesAs("delete video", reply, c.result)
  {
    if !Truthy(videoId) then Call(Err(MISSING_ID), [])
    else WrappedFetch("delete video", Request(DELETE, CreateApiUrl(base, "/delete/" + ToJsString(videoId)), Undefined), reply)
  }

  /**
   * `downloadVideo`: a missing id rejects with 400 before any call; it uses
   * `fetch` directly, hands back the raw response when it is OK, and wraps
   * every failure, keeping a failed response's status (500 for none).
   */
  function DownloadVideo(base: string, videoId: Value, reply: Outcome): (c: Call<HttpResponse>)
    ensures !Truthy(videoId) ==> c == Call(Err(MISSING_ID), [])
    ensures Truthy(videoId) ==> c.sent == [Request(GET, base + ("/download/" + ToJsString(videoId)), Undefined)]
    ensures Truthy(videoId) ==> (c.result.Ok? <==> reply.Replied? && reply.response.IsOk())
    ensures Truthy(videoId) && c.result.Ok? ==> c.result.value == reply.response
    ensures Truthy(videoId) && reply.Replied? && !reply.response.IsOk() ==>
      c.result == Err(NewApiError(FailurePrefix("download video") + ("Download failed: " + reply.response.statusText),
                                  if reply.response.status != 0 then reply.response.status else 500))
    ensures Truthy(videoId) && !reply.Replied? ==> c.result.Err? && c.result.error.ApiError? && c.result.error.status == 500
  {
    if !Truthy(videoId) then Call(Err(MISSING_ID), [])
    else
      var req := Request(GET, CreateApiUrl(base, "/download/" + ToJsString(videoId)), Undefined);
      var attempt := match Fetch(reply)
        case Ok(resp) =>
          if !resp.IsOk() then Err(NewApiError("Download failed: " + resp.statusText, resp.status)) else Ok(resp)
        case Err(e) => Err(e);
      Call(if attempt.Ok? then attempt else Err(Wrap("download video", attempt.error)), [req])
  }

  // ---------------------------------------------------------------------------
  // Status poller

  /** How a promise of the client stands: resolved, rejected, or still pending. */
  datatype Settled<T> = Resolved(value: T) | Rejected(error: Error) | Pending

  const CANCELLED: Error := NewApiError("Status polling was cancelled", 499)
  const NOT_FOUND: Error := NewApiError("Video not found", 404)

  /** What `signal?.aborted` reads at check point `k`; a missing signal never aborts. */
  predicate AbortedAt(signal: seq<bool>, k: nat) {
    k < |signal| && signal[k]
  }

  /** `v.key`, which throws a TypeError when `v` is null or undefined. */
  function ReadProperty(v: Value, key: string): (r: Result<Value>)
    ensures r.Ok? <==> !v.Undefined? && !v.Null?
    ensures r.Ok? ==> r.value == Property(v, key)
    ensures r.Err? ==> r.error.NativeError? && r.error.name == "TypeError"
  {
    if v.Undefined? || v.Null? then
      var shown := if v.Null? then "null" else "undefined";
      Err(NativeError("TypeError", "Cannot read properties of " + shown + " (reading '" + key + "')"))
    else Ok(Property(v, key))
  }

  /** What the poller does after reporting a snapshot. */
  datatype Verdict = Finish(outcome: Settled<Value>) | PollAgain

  /**
   * The decision on one snapshot: `ready` resolves with the snapshot,
   * `not_found` rejects with 404, a snapshot without properties (null)
   * rejects with the TypeError of reading its tag, and every other tag,
   * `generating`, `error` or unknown, polls again.
   */
  function Decide(snapshot: Value): (d: Verdict)
    ensures d.Finish? ==> !d.outcome.Pending?
    ensures d == Finish(Resolved(snapshot)) <==> Property(snapshot, "status") == Str(STATUS_READY)
    ensures d == Finish(Rejected(NOT_FOUND)) <==> Property(snapshot, "status") == Str(STATUS_NOT_FOUND)
    ensures d.Finish? && d.outcome.Rejected? && d.outcome.error != NOT_FOUND ==>
      (snapshot.Undefined? || snapshot.Null?)
      && d.outcome.error.NativeError? && d.outcome.error.name == "TypeError"
    ensures d == PollAgain <==>
      !snapshot.Undefined? && !snapshot.Null?
      && Property(snapshot, "status") != Str(STATUS_READY)
      && Property(snapshot, "status") != Str(STATUS_NOT_FOUND)
  {
    match ReadProperty(snapshot, "status")
    case Err(e) => Finish(Rejected(e))
    case Ok(tag) =>
      if StrictEquals(tag, Str(STATUS_READY)) then Finish(Resolved(snapshot))
      else if StrictEquals(tag, Str(STATUS_NOT_FOUND)) then Finish(Rejected(NOT_FOUND))
      else PollAgain
  }

  /** The `error` tag is not terminal: the poller keeps querying past it. */
  lemma ErrorTagKeepsPolling(snapshot: Value)
    requires snapshot.Obj? && "status" in snapshot.props && snapshot.props["status"] == Str(STATUS_ERROR)
    ensures Decide(snapshot) == PollAgain
  {
  }

  /**
   * A run of the poller: how it settled, the snapshots it passed to
   * `onProgress` in order, and the status queries it issued in order.
   */
  datatype PollRun = PollRun(outcome: Settled<Value>, progress: seq<Value>, sent: seq<Request>)

  /** `run` preceded by the snapshots `progress` and the queries `sent`. */
  function After(progress: seq<Value>, sent: seq<Request>, run: PollRun): PollRun {
    PollRun(run.outcome, progress + run.progress, sent + run.sent)
  }

  /**
   * The answer each status query of the poller gets: the query at check
   * point `i` is answered by `replies[i]`. A query is only issued when the
   * poller reaches its check point.
   */
  function Queries(base: string, videoId: Value, replies: seq<Outcome>): seq<Call<Value>> {
    seq(|replies|, i requires 0 <= i < |replies| => GetVideoStatus(base, videoId, replies[i]))
  }

  /**
   * The poller's loop from check point `k` on, over the answers its status
   * queries get: check the signal, take the query's answer, report the
   * snapshot, decide. When the answers run out before the poller settles,
   * the run is `Pending`.
   */
  function PollOver(queries: seq<Call<Value>>, signal: seq<bool>, k: nat): PollRun
    requires k <= |queries|
    decreases |queries| - k
  {
    if AbortedAt(signal, k) then PollRun(Rejected(CANCELLED), [], [])
    else if k == |queries| then PollRun(Pending, [], [])
    else
      var query := queries[k];
      match query.result
      case Err(e) => PollRun(Rejected(e), [], query.sent)
      case Ok(snapshot) =>
        match Decide(snapshot)
        case Finish(outcome) => PollRun(outcome, [snapshot], query.sent)
        case PollAgain => After([snapshot], query.sent, PollOver(queries, signal, k + 1))
  }

  /**
   * `pollVideoStatus` from check point `k` on, its status queries answered
   * by `replies`. Without an id the first status query rejects before it
   * reaches the transport, so that poll needs no reply to settle.
   */
  function PollFrom(base: string, videoId: Value, signal: seq<bool>, replies: seq<Outcome>, k: nat): PollRun
    requires k <= |replies|
  {
    if !Truthy(videoId) && !AbortedAt(signal, k) then PollRun(Rejected(MISSING_ID), [], [])
    else PollOver(Queries(base, videoId, replies), signal, k)
  }

  /**
   * A poll without an id settles at its first check point, cancelled or
   * with the 400 of the status query, reporting nothing and issuing no
   * request, however many replies there are; where a reply is left, this
   * is the run the status query itself produces.
   */
  lemma PollMissingId(base: string, videoId: Value, signal: seq<bool>, replies: seq<Outcome>, k: nat)
    requires k <= |replies| && !Truthy(videoId)
    ensures var run := PollFrom(base, videoId, signal, replies, k);
      && run.progress == [] && run.sent == []
      && run.outcome == (if AbortedAt(signal, k) then Rejected(CANCELLED) else Rejected(MISSING_ID))
    ensures k < |replies| ==>
      PollFrom(base, videoId, signal, replies, k) == PollOver(Queries(base, videoId, replies), signal, k)
  {
  }

  /**
   * A failed status query is never mistaken for a cancellation: its error
   * is the 400 of a missing id, or a wrapped error whose message starts
   * with "Failed to".
   */
  lemma QueryErrorIsNotCancellation(base: string, videoId: Value, reply: Outcome)
    ensures var r := GetVideoStatus(base, videoId, reply).result;
      r.Err? ==> r.error != CANCELLED && r.error != NOT_FOUND
  {
    var r := GetVideoStatus(base, videoId, reply).result;
    if r.Err? && Truthy(videoId) {
      assert r.error.message[0] == 'F';
    }
  }

  /** The request a status query hands to the transport: a GET of `/status/<id>`. */
  function StatusQuery(base: string, videoId: Value): Request {
    Request(GET, CreateApiUrl(base, "/status/" + ToJsString(videoId)), Undefined)
  }

  /** The snapshot the transport's reply carries, when it is an OK JSON response. */
  predicate CarriesSnapshot(reply: Outcome, snapshot: Value) {
    reply.Replied? && reply.response.IsOk() && reply.response.body == Json(snapshot)
  }

  /**
   * What a status query answered by `reply` contributes to a run: it issues
   * the status GET or nothing; it yields a snapshot only when the reply is
   * an OK JSON response carrying it, and always does so for such a reply
   * when the id is present; its error is an `ApiError`, never one the poller raises itself,
   * and carries the status of the server's reply unless it is 400, 408 or 500.
   */
  predicate QueryShaped(query: Call<Value>, base: string, videoId: Value, reply: Outcome) {
    && (query.sent == [] || query.sent == [StatusQuery(base, videoId)])
    && (query.result.Ok? ==> query.sent == [StatusQuery(base, videoId)] && CarriesSnapshot(reply, query.result.value))
    && (Truthy(videoId) && reply.Replied? && reply.response.IsOk() && reply.response.body.Json? ==>
          query.result == Ok(reply.response.body.value))
    && (query.result.Err? ==> query.result.error.ApiError?)
    && (query.result.Err? ==> query.result.error != CANCELLED && query.result.error != NOT_FOUND)
    && (query.result.Err? && query.result.error.ApiError? && query.result.error.status != 400
        && query.result.error.status != 408 && query.result.error.status != 500 ==>
          reply.Replied? && reply.response.status == query.result.error.status)
  }

  /** Each query is shaped by the reply at its check point. */
  predicate AnsweredBy(queries: seq<Call<Value>>, base: string, videoId: Value, replies: seq<Outcome>) {
    |queries| == |replies|
    && forall i {:trigger queries[i]} :: 0 <= i < |queries| ==> QueryShaped(queries[i], base, videoId, replies[i])
  }

  lemma StatusQueryShape(base: string, videoId: Value, reply: Outcome)
    ensures QueryShaped(GetVideoStatus(base, videoId, reply), base, videoId, reply)
  {
    QueryErrorIsNotCancellation(base, videoId, reply);
  }

  /** The status queries of `pollVideoStatus` are shaped by their replies. */
  lemma QueriesAnswered(base: string, videoId: Value, replies: seq<Outcome>)
    ensures AnsweredBy(Queries(base, videoId, replies), base, videoId, replies)
  {
    var queries := Queries(base, videoId, replies);
    forall i | 0 <= i < |replies|
      ensures QueryShaped(queries[i], base, videoId, replies[i])
    {
      StatusQueryShape(base, videoId, replies[i]);
    }
  }

  /**
   * The progress log is exactly the snapshots of the consecutive replies
   * from `k` on, in observation order, one `onProgress` call each; every
   * query is the status GET for the job, and there is at most one query
   * more than reported snapshots (a failed one).
   */
  lemma {:induction false} PollObservations(base: string, videoId: Value, replies: seq<Outcome>,
                                            queries: seq<Call<Value>>, signal: seq<bool>, k: nat)
    requires AnsweredBy(queries, base, videoId, replies) && k <= |queries|
    ensures var run := PollOver(queries, signal, k);
      && |run.progress| <= |run.sent| <= |run.progress| + 1
      && (|run.sent| == |run.progress| + 1 ==> run.outcome.Rejected?)
      && k + |run.sent| <= |replies|
      && (forall i :: 0 <= i < |run.progress| ==> CarriesSnapshot(replies[k + i], run.progress[i]))
      && (forall i :: 0 <= i < |run.sent| ==> run.sent[i] == StatusQuery(base, videoId))
    decreases |queries| - k
  {
    if !AbortedAt(signal, k) && k < |queries| {
      var query := queries[k];
      assert QueryShaped(query, base, videoId, replies[k]);
      if query.result.Ok? && Decide(query.result.value) == PollAgain {
        PollObservations(base, videoId, replies, queries, signal, k + 1);
        var run := PollOver(queries, signal, k);
        var rest := PollOver(queries, signal, k + 1);
        assert run.progress == [query.result.value] + rest.progress;
        assert run.sent == query.sent + rest.sent;
        forall i | 1 <= i < |run.progress|
          ensures CarriesSnapshot(replies[k + i], run.progress[i])
        {
          assert run.progress[i] == rest.progress[i - 1];
          assert k + i == (k + 1) + (i - 1);
        }
      }
    }
  }

  /**
   * Every snapshot but the last one made the poller query again, and so did
   * the last one when the run ends cancelled or pending; the signal was not
   * set at any check point before a reported snapshot.
   */
  lemma {:induction false} PollPolledAgain(queries: seq<Call<Value>>, signal: seq<bool>, k: nat)
    requires k <= |queries|
    ensures var run := PollOver(queries, signal, k);
      var n := |run.progress|;
      && (forall i :: 0 <= i < n - 1 ==> Decide(run.progress[i]) == PollAgain)
      && (forall i :: k <= i < k + n ==> !AbortedAt(signal, i))
      && (run.outcome == Rejected(CANCELLED) || run.outcome.Pending? ==>
            forall i :: 0 <= i < n ==> Decide(run.progress[i]) == PollAgain)
    decreases |queries| - k
  {
    if !AbortedAt(signal, k) && k < |queries| {
      var query := queries[k];
      if query.result.Ok? && Decide(query.result.value).PollAgain? {
        PollPolledAgain(queries, signal, k + 1);
        var run := PollOver(queries, signal, k);
        var rest := PollOver(queries, signal, k + 1);
        assert run.progress == [query.result.value] + rest.progress;
        assert run.outcome == rest.outcome;
        forall i | 1 <= i < |run.progress|
          ensures run.progress[i] == rest.progress[i - 1]
        {
        }
      }
    }
  }

  /**
   * The poll resolves only with the last snapshot it reported, which is
   * tagged `ready`, and rejects with "Video not found" only when the last
   * snapshot is tagged `not_found`.
   */
  lemma {:induction false} PollFinalSnapshot(base: string, videoId: Value, replies: seq<Outcome>,
                                             queries: seq<Call<Value>>, signal: seq<bool>, k: nat)
    requires AnsweredBy(queries, base, videoId, replies) && k <= |queries|
    ensures var run := PollOver(queries, signal, k);
      var n := |run.progress|;
      && (run.outcome.Resolved? ==>
            n > 0 && run.outcome.value == run.progress[n - 1]
            && Property(run.outcome.value, "status") == Str(STATUS_READY))
      && (run.outcome == Rejected(NOT_FOUND) ==>
            n > 0 && Property(run.progress[n - 1], "status") == Str(STATUS_NOT_FOUND))
    decreases |queries| - k
  {
    if !AbortedAt(signal, k) && k < |queries| {
      var query := queries[k];
      assert QueryShaped(query, base, videoId, replies[k]);
      if query.result.Ok? && Decide(query.result.value).PollAgain? {
        PollFinalSnapshot(base, videoId, replies, queries, signal, k + 1);
        var run := PollOver(queries, signal, k);
        var rest := PollOver(queries, signal, k + 1);
        assert run.progress == [query.result.value] + rest.progress;
        assert run.outcome == rest.outcome;
        if rest.progress != [] {
          assert run.progress[|run.progress| - 1] == rest.progress[|rest.progress| - 1];
        }
      }
    }
  }

  /**
   * The poll rejects as cancelled only when the signal is set at the check
   * point after its last snapshot, having issued one query per snapshot and
   * no more; it stays pending only when every reply was consumed and the
   * final check point was not aborted.
   */
  lemma {:induction false} PollCancelledOrPending(base: string, videoId: Value, replies: seq<Outcome>,
                                                  queries: seq<Call<Value>>, signal: seq<bool>, k: nat)
    requires AnsweredBy(queries, base, videoId, replies) && k <= |queries|
    ensures var run := PollOver(queries, signal, k);
      var n := |run.progress|;
      && (run.outcome == Rejected(CANCELLED) ==> AbortedAt(signal, k + n) && |run.sent| == n)
      && (run.outcome.Pending? ==> k + n == |replies| && !AbortedAt(signal, |replies|))
    decreases |queries| - k
  {
    if !AbortedAt(signal, k) && k < |queries| {
      var query := queries[k];
      assert QueryShaped(query, base, videoId, replies[k]);
      if query.result.Ok? && Decide(query.result.value).PollAgain? {
        PollCancelledOrPending(base, videoId, replies, queries, signal, k + 1);
        var run := PollOver(queries, signal, k);
        var rest := PollOver(queries, signal, k + 1);
        assert run.progress == [query.result.value] + rest.progress;
        assert run.sent == query.sent + rest.sent;
        assert run.outcome == rest.outcome;
      }
    }
  }

  /**
   * Where a rejection of the poll comes from: the poller's own `Status
   * polling was cancelled` (499) or `Video not found` (404), the TypeError
   * of a snapshot without properties, or else the error of the status
   * query at the check point after the last snapshot. Such a query error
   * with any status but 400, 408 and 500, a 404 or 499 among them, is the
   * status of the server's reply to that query.
   */
  lemma {:induction false} PollRejectionOrigin(base: string, videoId: Value, replies: seq<Outcome>,
                                               queries: seq<Call<Value>>, signal: seq<bool>, k: nat)
    requires AnsweredBy(queries, base, videoId, replies) && k <= |queries|
    ensures var run := PollOver(queries, signal, k);
      var n := |run.progress|;
      run.outcome.Rejected? ==>
        var e := run.outcome.error;
        e != CANCELLED && e != NOT_FOUND && e.ApiError? ==>
        && k + n < |replies| && queries[k + n].result == Err(e)
        && (e.status != 400 && e.status != 408 && e.status != 500 ==>
              replies[k + n].Replied? && replies[k + n].response.status == e.status)
    decreases |queries| - k
  {
    if !AbortedAt(signal, k) && k < |queries| {
      var query := queries[k];
      assert QueryShaped(query, base, videoId, replies[k]);
      if query.result.Ok? && Decide(query.result.value).PollAgain? {
        PollRejectionOrigin(base, videoId, replies, queries, signal, k + 1);
        var run := PollOver(queries, signal, k);
        var rest := PollOver(queries, signal, k + 1);
        assert run.progress == [query.result.value] + rest.progress;
        assert run.outcome == rest.outcome;
        assert k + |run.progress| == (k + 1) + |rest.progress|;
      }
    }
  }

  /**
   * A rejection of the poll that is not an `ApiError` is the TypeError of
   * reading the tag of a last reported snapshot that is null or undefined.
   */
  lemma {:induction false} PollNativeRejection(base: string, videoId: Value, replies: seq<Outcome>,
                                               queries: seq<Call<Value>>, signal: seq<bool>, k: nat)
    requires AnsweredBy(queries, base, videoId, replies) && k <= |queries|
    ensures var run := PollOver(queries, signal, k);
      var n := |run.progress|;
      run.outcome.Rejected? && !run.outcome.error.ApiError? ==>
        && n > 0 && (run.progress[n - 1].Undefined? || run.progress[n - 1].Null?)
        && run.outcome.error.name == "TypeError"
    decreases |queries| - k
  {
    if !AbortedAt(signal, k) && k < |queries| {
      var query := queries[k];
      assert QueryShaped(query, base, videoId, replies[k]);
      if query.result.Ok? && Decide(query.result.value).PollAgain? {
        PollNativeRejection(base, videoId, replies, queries, signal, k + 1);
        var run := PollOver(queries, signal, k);
        var rest := PollOver(queries, signal, k + 1);
        assert run.progress == [query.result.value] + rest.progress;
        assert run.outcome == rest.outcome;
        if rest.progress != [] {
          assert run.progress[|run.progress| - 1] == rest.progress[|rest.progress| - 1];
        }
      }
    }
  }

  /**
   * One step of the poll from check point `k`, behind the snapshots
   * `progress` and queries `sent` of the earlier steps: how the run goes on.
   */
  lemma PollStep(queries: seq<Call<Value>>, signal: seq<bool>, k: nat, progress: seq<Value>, sent: seq<Request>)
    requires k <= |queries|
    ensures var run := After(progress, sent, PollOver(queries, signal, k));
      && (AbortedAt(signal, k) ==> run == PollRun(Rejected(CANCELLED), progress, sent))
      && (!AbortedAt(signal, k) && k == |queries| ==> run == PollRun(Pending, progress, sent))
    ensures !AbortedAt(signal, k) && k < |queries| ==>
      var query := queries[k];
      var run := After(progress, sent, PollOver(queries, signal, k));
      && (query.result.Err? ==> run == PollRun(Rejected(query.result.error), progress, sent + query.sent))
      && (query.result.Ok? && Decide(query.result.value).Finish? ==>
            run == PollRun(Decide(query.result.value).outcome, progress + [query.result.value], sent + query.sent))
      && (query.result.Ok? && Decide(query.result.value).PollAgain? ==>
            run == After(progress + [query.result.value], sent + query.sent, PollOver(queries, signal, k + 1)))
  {
    assert progress + [] == progress && sent + [] == sent;
    if !AbortedAt(signal, k) && k < |queries| {
      var query := queries[k];
      if query.result.Ok? && Decide(query.result.value).PollAgain? {
        var rest := PollOver(queries, signal, k + 1);
        assert progress + ([query.result.value] + rest.progress) == (progress + [query.result.value]) + rest.progress;
        assert sent + (query.sent + rest.sent) == (sent + query.sent) + rest.sent;
      }
    }
  }

  /** An OK JSON reply whose snapshot makes the poller query again. */
  predicate KeepsPolling(reply: Outcome) {
    reply.Replied? && reply.response.IsOk() && reply.response.body.Json?
    && Decide(reply.response.body.value) == PollAgain
  }

  /**
   * Cancellation: when the signal is first seen set at check point `m`,
   * after the replies `k .. m - 1` were snapshots that polled again, the
   * poller rejects with 499, having reported one snapshot and issued one
   * query per check point before `m`, and none from `m` on.
   */
  lemma {:induction false} PollCancelled(base: string, videoId: Value, replies: seq<Outcome>,
                                         queries: seq<Call<Value>>, signal: seq<bool>, k: nat, m: nat)
    requires AnsweredBy(queries, base, videoId, replies) && k <= m <= |queries|
    requires Truthy(videoId)
    requires forall i :: k <= i < m ==> !AbortedAt(signal, i)
    requires forall i :: k <= i < m ==> KeepsPolling(replies[i])
    requires AbortedAt(signal, m)
    ensures var run := PollOver(queries, signal, k);
      && run.outcome == Rejected(CANCELLED) && run.outcome.error.status == 499
      && |run.sent| == m - k
      && |run.progress| == m - k
    decreases m - k
  {
    if k < m {
      assert QueryShaped(queries[k], base, videoId, replies[k]);
      PollCancelled(base, videoId, replies, queries, signal, k + 1, m);
    }
  }

  /**
   * A failed status query ends the poll at once with the query's own
   * (wrapped) error: there is no retry, and no snapshot is reported for it.
   */
  lemma PollFailedQuery(base: string, videoId: Value, signal: seq<bool>, replies: seq<Outcome>, k: nat)
    requires k < |replies| && !AbortedAt(signal, k)
    requires GetVideoStatus(base, videoId, replies[k]).result.Err?
    ensures PollFrom(base, videoId, signal, replies, k)
      == PollRun(Rejected(GetVideoStatus(base, videoId, replies[k]).result.error), [],
                 GetVideoStatus(base, videoId, replies[k]).sent)
  {
  }

  /** An OK reply carrying the given snapshot. */
  function SnapshotReply(snapshot: Value): Outcome {
    Replied(HttpResponse(200, "OK", Json(snapshot)))
  }

  /**
   * Three `generating` snapshots and then a `ready` one: `onProgress` sees
   * all four in order, four queries are issued, and the poll resolves with
   * the fourth.
   */
  lemma PollThreeGeneratingThenReady(base: string, videoId: Value, g1: Value, g2: Value, g3: Value, ready: Value)
    requires Truthy(videoId)
    requires Property(g1, "status") == Property(g2, "status") == Property(g3, "status") == Str(STATUS_GENERATING)
    requires Property(ready, "status") == Str(STATUS_READY)
    ensures var replies := [SnapshotReply(g1), SnapshotReply(g2), SnapshotReply(g3), SnapshotReply(ready)];
      var run := PollFrom(base, videoId, [], replies, 0);
      run.outcome == Resolved(ready) && run.progress == [g1, g2, g3, ready] && |run.sent| == 4
  {
    var replies := [SnapshotReply(g1), SnapshotReply(g2), SnapshotReply(g3), SnapshotReply(ready)];
    var queries := Queries(base, videoId, replies);
    QueriesAnswered(base, videoId, replies);
    assert QueryShaped(queries[0], base, videoId, replies[0]);
    assert QueryShaped(queries[1], base, videoId, replies[1]);
    assert QueryShaped(queries[2], base, videoId, replies[2]);
    assert QueryShaped(queries[3], base, videoId, replies[3]);
    var r3 := PollOver(queries, [], 3);
    assert r3.outcome == Resolved(ready) && r3.progress == [ready] && |r3.sent| == 1;
    var r2 := PollOver(queries, [], 2);
    assert r2.progress == [g3, ready] && |r2.sent| == 2;
    var r1 := PollOver(queries, [], 1);
    assert r1.progress == [g2, g3, ready] && |r1.sent| == 3;
  }

  // ---------------------------------------------------------------------------
  // Workflow

  /**
   * The check of the submission response in `generateVideoWithPolling`: it
   * must say `status === 'success'` and carry a truthy `video_id`, which is
   * the job to poll; otherwise the rejection is a 500 carrying the response,
   * except for a null or undefined response, whose `status` cannot be read:
   * that rejects with the engine's TypeError.
   */
  function CheckSubmission(response: Value): (r: Result<Value>)
    ensures r.Ok? <==> response.Obj? && Property(response, "status") == Str("success")
                       && Truthy(Property(response, "video_id"))
    ensures r.Ok? ==> r.value == Property(response, "video_id")
    ensures r.Err? && !response.Undefined? && !response.Null? ==>
      r.error == ApiError("Video generation failed", 500, response)
    ensures response.Undefined? || response.Null? ==>
      r.Err? && r.error.NativeError? && r.error.name == "TypeError"
  {
    match ReadProperty(response, "status")
    case Err(e) => Err(e)
    case Ok(status) =>
      if !StrictEquals(status, Str("success")) || !Truthy(Property(response, "video_id")) then
        Err(ApiError("Video generation failed", 500, response))
      else Ok(Property(response, "video_id"))
  }

  /**
   * `{ ...generateResponse, finalStatus }`: every field of the submission
   * response, plus `finalStatus`, which overrides a field of that name.
   */
  function WithFinalStatus(response: Value, finalStatus: Value): (r: Value)
    requires response.Obj?
    ensures r.Obj? && r.props.Keys == response.props.Keys + {"finalStatus"}
    ensures r.props["finalStatus"] == finalStatus
    ensures forall key :: key in response.props && key != "finalStatus" ==> r.props[key] == response.props[key]
  {
    Obj(response.props["finalStatus" := finalStatus])
  }

  /** How the workflow settles once the poll of an accepted submission has settled. */
  function WorkflowOutcome(response: Value, polled: Settled<Value>): Settled<Value>
    requires response.Obj?
  {
    match polled
    case Resolved(finalStatus) => Resolved(WithFinalStatus(response, finalStatus))
    case Rejected(e) => Rejected(e)
    case Pending => Pending
  }

  // ---------------------------------------------------------------------------
  // Batch delete

  /** One entry of `deleteMultipleVideos`' result. `error` is the message, or null. */
  datatype DeleteReport = DeleteReport(videoId: Value, success: bool, error: Value)

  /**
   * `deleteMultipleVideos`: every delete settles on its own (`replies[i]`
   * answers the delete of `videoIds[i]`), and the reports come back in input
   * order, one per id, success exactly when that delete fulfilled, with the
   * rejection's message otherwise.
   */
  function DeleteMultipleVideos(base: string, videoIds: seq<Value>, replies: seq<Outcome>): (reports: seq<DeleteReport>)
    requires |replies| == |videoIds|
    ensures |reports| == |videoIds|
    ensures forall i :: 0 <= i < |videoIds| ==> reports[i].videoId == videoIds[i]
    ensures forall i :: 0 <= i < |videoIds| ==>
      (reports[i].success <==> DeleteVideo(base, videoIds[i], replies[i]).result.Ok?)
    ensures forall i :: 0 <= i < |videoIds| ==>
      reports[i].error == (if reports[i].success then Null
                           else Str(DeleteVideo(base, videoIds[i], replies[i]).result.error.message))
  {
    seq(|videoIds|, i requires 0 <= i < |videoIds| =>
      var r := DeleteVideo(base, videoIds[i], replies[i]).result;
      DeleteReport(videoIds[i], r.Ok?, if r.Ok? then Null else Str(r.error.message)))
  }

  /**
   * Settle all, never fail fast: what the transport does to one delete
   * changes that delete's report and no other.
   */
  lemma DeleteIsolation(base: string, videoIds: seq<Value>, replies: seq<Outcome>, j: nat, other: Outcome)
    requires |replies| == |videoIds| && j < |videoIds|
    ensures var before := DeleteMultipleVideos(base, videoIds, replies);
      var after := DeleteMultipleVideos(base, videoIds, replies[j := other]);
      forall i :: 0 <= i < |videoIds| && i != j ==> after[i] == before[i]
  {
  }

  /**
   * Two ids, the first delete failing and the second succeeding: the report
   * lists the failure first, with its message, and the success second.
   */
  lemma DeleteTwoMixed(base: string, a: Value, b: Value, replyA: Outcome, replyB: Outcome)
    requires DeleteVideo(base, a, replyA).result.Err? && DeleteVideo(base, b, replyB).result.Ok?
    ensures DeleteMultipleVideos(base, [a, b], [replyA, replyB])
      == [DeleteReport(a, false, Str(DeleteVideo(base, a, replyA).result.error.message)),
          DeleteReport(b, true, Null)]
  {
    var reports := DeleteMultipleVideos(base, [a, b], [replyA, replyB]);
    assert reports[0].videoId == a && reports[1].videoId == b;
  }

  // ---------------------------------------------------------------------------
  // The service object

  /**
   * `ManimApiService`: the configuration fields set once by the constructor,
   * and the two operations that run as a sequence of steps: the poll loop
   * and the generate-then-poll workflow.
   */
  class ManimApiService {
    const baseURL: string
    const timeout: nat
    const pollInterval: nat

    /** `env` is the build variable `VITE_API_URL` (empty when unset). */
    constructor (env: string)
      ensures baseURL == BaseUrl(env) && baseURL != ""
      ensures timeout == TIMEOUT && pollInterval == POLL_INTERVAL
    {
      baseURL := BaseUrl(env);
      timeout := TIMEOUT;
      pollInterval := POLL_INTERVAL;
    }

    /**
     * `pollVideoStatus`: before each query, check the signal; query the
     * job's status; report the snapshot; resolve on `ready`, reject on
     * `not_found`, otherwise poll again. A failed query, the 400 of a
     * missing id among them, rejects the poll with its error.
     */
    method PollVideoStatus(videoId: Value, signal: seq<bool>, replies: seq<Outcome>)
      returns (outcome: Settled<Value>, progress: seq<Value>, sent: seq<Request>)
      ensures PollRun(outcome, progress, sent) == PollFrom(baseURL, videoId, signal, replies, 0)
    {
      outcome, progress, sent := Pending, [], [];
      var k := 0;
      var polling := true;
      ghost var queries := Queries(baseURL, videoId, replies);
      ghost var target := PollFrom(baseURL, videoId, signal, replies, 0);
      assert target == After([], [], target);
      while polling
        invariant k <= |replies|
        invariant polling ==> outcome == Pending
        invariant polling ==> target == After(progress, sent, PollFrom(baseURL, videoId, signal, replies, k))
        invariant !polling ==> PollRun(outcome, progress, sent) == target
        decreases |replies| - k, polling
      {
        PollStep(queries, signal, k, progress, sent);
        if AbortedAt(signal, k) {
          outcome := Rejected(CANCELLED);
          polling := false;
        } else if !Truthy(videoId) {
          // `getVideoStatus` rejects a falsy id before it calls the transport
          outcome := Rejected(MISSING_ID);
          polling := false;
        } else if k == |replies| {
          polling := false;
        } else {
          var query := GetVideoStatus(baseURL, videoId, replies[k]);
          assert query == queries[k];
          sent := sent + query.sent;
          match query.result {
            case Err(e) =>
              outcome := Rejected(e);
              polling := false;
            case Ok(snapshot) =>
              progress := progress + [snapshot];
              match Decide(snapshot) {
                case Finish(settled) =>
                  outcome := settled;
                  polling := false;
                case PollAgain =>
                  k := k + 1;
              }
          }
        }
      }
    }

    /**
     * `generateVideoWithPolling`: submit; a failed submission rejects with
     * its own error, unchanged, and polls nothing; a response that is not a
     * success with a `video_id` rejects with 500 and polls nothing; otherwise
     * poll that job with the same signal and resolve with the submission
     * fields plus `finalStatus`. The submission is the first request issued.
     */
    method GenerateVideoWithPolling(params: GenerateParams, signal: seq<bool>, submitReply: Outcome, pollReplies: seq<Outcome>)
      returns (outcome: Settled<Value>, progress: seq<Value>, sent: seq<Request>)
      ensures var submission := GenerateVideo(baseURL, params, submitReply);
        submission.result.Err? ==>
          outcome == Rejected(submission.result.error) && progress == [] && sent == submission.sent
      ensures var submission := GenerateVideo(baseURL, params, submitReply);
        submission.result.Ok? && CheckSubmission(submission.result.value).Err? ==>
          outcome == Rejected(CheckSubmission(submission.result.value).error)
          && progress == [] && sent == submission.sent
      ensures var submission := GenerateVideo(baseURL, params, submitReply);
        submission.result.Ok? && CheckSubmission(submission.result.value).Ok? ==>
          var run := PollFrom(baseURL, CheckSubmission(submission.result.value).value, signal, pollReplies, 0);
          && submission.result.value.Obj?
          && outcome == WorkflowOutcome(submission.result.value, run.outcome)
          && progress == run.progress
          && sent == submission.sent + run.sent
      ensures sent != [] ==> sent[0].verb == POST
    {
      var submission := GenerateVideo(baseURL, params, submitReply);
      sent, progress := submission.sent, [];
      if submission.result.Err? {
        outcome := Rejected(submission.result.error);
        return;
      }
      var response := submission.result.value;
      var check := CheckSubmission(response);
      if check.Err? {
        outcome := Rejected(check.error);
        return;
      }
      var polled, observed, queries := PollVideoStatus(check.value, signal, pollReplies);
      progress := observed;
      sent := sent + queries;
      outcome := WorkflowOutcome(response, polled);
    }
  }

  /**
   * A workflow whose submission was accepted but whose signal is already
   * set when polling would begin rejects with the 499 cancellation,
   * reporting no progress and issuing no status query.
   */
  lemma WorkflowCancelledBeforePolling(base: string, response: Value, signal: seq<bool>, replies: seq<Outcome>)
    requires CheckSubmission(response).Ok? && AbortedAt(signal, 0)
    ensures var run := PollFrom(base, CheckSubmission(response).value, signal, replies, 0);
      && response.Obj?
      && WorkflowOutcome(response, run.outcome) == Rejected(CANCELLED)
      && WorkflowOutcome(response, run.outcome).error.status == 499
      && run.progress == [] && run.sent == []
  {
  }

  /**
   * Round trip: a workflow that resolves yields the submission's fields and
   * a `finalStatus` that is the last snapshot reported, tagged `ready`.
   */
  lemma WorkflowResolvedCarriesReady(base: string, response: Value, signal: seq<bool>, replies: seq<Outcome>)
    requires CheckSubmission(response).Ok?
    ensures var run := PollFrom(base, CheckSubmission(response).value, signal, replies, 0);
      var result := WorkflowOutcome(response, run.outcome);
      result.Resolved? ==>
        && result.value.Obj?
        && (forall key :: key in response.props && key != "finalStatus" ==>
              key in result.value.props && result.value.props[key] == response.props[key])
        && "finalStatus" in result.value.props
        && result.value.props["finalStatus"] == run.progress[|run.progress| - 1]
        && Property(result.value.props["finalStatus"], "status") == Str(STATUS_READY)
  {
    var id := CheckSubmission(response).value;
    QueriesAnswered(base, id, replies);
    PollFinalSnapshot(base, id, replies, Queries(base, id, replies), signal, 0);
  }
}
