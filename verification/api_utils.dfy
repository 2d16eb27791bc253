/**
 * The error model and the translation of an HTTP response into either its
 * parsed body or an `ApiError`, and the URL builder.
 */
module ApiUtils {
  import opened JsValue

  /**
   * What an operation can throw. `ApiError` is the client's own error type:
   * a message, a numeric status and a diagnostic payload (`null` when none
   * is given). `NativeError` is a built-in error (`TypeError`,
   * `SyntaxError`, `AbortError`): it has a name and a message but no status.
   */
  datatype Error =
    | ApiError(message: string, status: nat, data: Value)
    | NativeError(name: string, message: string)
  {
    /** `error.name` */
    function Name(): string {
      if ApiError? then "ApiError" else name
    }

    /** `error.status || 500`: a missing or zero status reads as 500. */
    function StatusOr500(): (s: nat)
      ensures s != 0
      ensures ApiError? && status != 0 ==> s == status
      ensures NativeError? ==> s == 500
    {
      if ApiError? && status != 0 then status else 500
    }
  }

  /** A settled promise of the client: its value, or what it rejected with. */
  datatype Result<T> = Ok(value: T) | Err(error: Error)

  /** A response body: parsed JSON, or text that `response.json()` rejects. */
  datatype Body = Json(value: Value) | Malformed(reason: string)

  datatype HttpResponse = HttpResponse(status: nat, statusText: string, body: Body) {
    /** `response.ok` */
    predicate IsOk() {
      200 <= status <= 299
    }
  }

  /** `new ApiError(message, status)`: a payload not given is null. */
  function NewApiError(message: string, status: nat): (e: Error)
    ensures e.Name() == "ApiError" && e.ApiError?
    ensures e.message == message && e.status == status && e.data == Null
  {
    ApiError(message, status, Null)
  }

  /** `await response.json().catch(() => null)` */
  function ParsedOrNull(body: Body): Value {
    if body.Json? then body.value else Null
  }

  /** `errorData?.detail || \`HTTP ${status}: ${statusText}\`` */
  function ErrorMessage(resp: HttpResponse): string {
    var detail := Property(ParsedOrNull(resp.body), "detail");
    if Truthy(detail) then ToJsString(detail)
    else "HTTP " + NatToString(resp.status) + ": " + resp.statusText
  }

  /**
   * `handleApiResponse`: a response that is not OK always becomes an
   * `ApiError` carrying the response's own status and, as payload, the
   * parsed body (null when it does not parse); an OK response yields its
   * parsed body unchecked, or the parser's `SyntaxError`.
   */
  function HandleApiResponse(resp: HttpResponse): (r: Result<Value>)
    ensures !resp.IsOk() ==> r.Err? && r.error.ApiError?
    ensures !resp.IsOk() ==> r.error.status == resp.status && r.error.data == ParsedOrNull(resp.body)
    ensures resp.IsOk() ==> (r.Ok? <==> resp.body.Json?)
    ensures r.Ok? ==> resp.IsOk() && r.value == resp.body.value
    ensures resp.IsOk() && r.Err? ==> r.error == NativeError("SyntaxError", resp.body.reason)
  {
    if !resp.IsOk() then
      Err(ApiError(ErrorMessage(resp), resp.status, ParsedOrNull(resp.body)))
    else match resp.body
      case Json(v) => Ok(v)
      case Malformed(reason) => Err(NativeError("SyntaxError", reason))
  }

  /**
   * The message of a failed response: the body's `detail` when that is a
   * non-empty string; any other truthy `detail` rendered by `String(...)`;
   * and the generic `HTTP <status>: <statusText>` when the body does not
   * parse or its `detail` is missing or falsy (null, false, 0, "").
   */
  lemma HandleApiResponseMessage(resp: HttpResponse)
    requires !resp.IsOk()
    ensures var b := resp.body;
      b.Json? && Property(b.value, "detail").Str? && Property(b.value, "detail").s != ""
      ==> HandleApiResponse(resp).error.message == Property(b.value, "detail").s
    ensures var b := resp.body;
      b.Json? && Truthy(Property(b.value, "detail"))
      ==> HandleApiResponse(resp).error.message == ToJsString(Property(b.value, "detail"))
    ensures var b := resp.body;
      (b.Malformed? || !Truthy(Property(b.value, "detail")))
      ==> HandleApiResponse(resp).error.message
          == "HTTP " + NatToString(resp.status) + ": " + resp.statusText
  {
  }

  /**
   * A validation failure whose `detail` is a list of two error objects:
   * the message is their `String(...)` rendering, not their text, and the
   * status is kept.
   */
  lemma HandleApiResponseObjectDetail(first: map<string, Value>, second: map<string, Value>)
    ensures var resp := HttpResponse(422, "Unprocessable Entity",
                                     Json(Obj(map["detail" := Arr([Obj(first), Obj(second)])])));
      HandleApiResponse(resp).error == ApiError("[object Object],[object Object]", 422, resp.body.value)
  {
    var items := [Obj(first), Obj(second)];
    JoinTwoObjects(first, second);
    var resp := HttpResponse(422, "Unprocessable Entity", Json(Obj(map["detail" := Arr(items)])));
    assert Property(ParsedOrNull(resp.body), "detail") == Arr(items);
  }

  /** `createApiUrl(endpoint)`: the configured base URL followed by the endpoint. */
  function CreateApiUrl(base: string, endpoint: string): (url: string)
    ensures |url| == |base| + |endpoint|
    ensures url[..|base|] == base && url[|base|..] == endpoint
  {
    base + endpoint
  }
}
