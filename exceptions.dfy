/** The LLM exception hierarchy of the bridge as one datatype. Every
    constructor is an `LLMError`; `ApiError`, `RateLimitError`, `ModelError`
    and `TokenLimitError` are the `LLMAPIError` family, which also carries
    the HTTP status code and the provider's error code. */
module LlmErrors {
  import opened Wrappers
  import opened Text
  import opened Json

  datatype LLMError =
    | ConfigurationError(message: string, details: Fields)
    | ConnectionError(message: string, details: Fields)
    | AuthenticationError(message: string, details: Fields)
    | TimeoutError(message: string, details: Fields)
    | ResponseError(message: string, details: Fields)
    | ApiError(message: string, details: Fields, statusCode: Option<int>, errorCode: Value)
    | RateLimitError(message: string, details: Fields, statusCode: Option<int>, errorCode: Value,
                     retryAfter: Option<string>)
    | ModelError(message: string, details: Fields, statusCode: Option<int>, errorCode: Value)
    | TokenLimitError(message: string, details: Fields, statusCode: Option<int>, errorCode: Value)

  /** What a raising call raises: an LLM error, or a plain Python exception. */
  datatype Raised = Llm(err: LLMError) | Py(exc: PyError)

  /** The outcome of a call that returns a value or raises. */
  datatype Outcome<+T> = Done(value: T) | Threw(raised: Raised) {
    predicate IsFailure() { Threw? }
    function PropagateFailure<U>(): Outcome<U> requires Threw? { Threw(raised) }
    function Extract(): T requires Done? { value }
  }

  /** A plain Python failure as an outcome. */
  function Lift<T>(r: Result<T>): (o: Outcome<T>)
    ensures r.Ok? <==> o.Done?
    ensures r.Ok? ==> o.value == r.value
    ensures r.Err? ==> o.raised == Py(r.error)
  {
    match r
    case Ok(v) => Done(v)
    case Err(e) => Threw(Py(e))
  }

  /** What an HTTP POST gives back: a response (status, body text and the
      `retry-after` header), a client-side failure (the aiohttp error's
      class name and text), or a timeout. */
  datatype HttpReply =
    | Response(status: int, text: string, retryAfter: Option<string>)
    | ClientFailure(errorType: string, description: string)
    | TimedOut

  /** The constructors' `details or {}`. */
  function DetailsOr(details: Option<Fields>): (d: Fields)
    ensures details.None? ==> d == []
    ensures details.Some? ==> d == details.value
  {
    match details
    case Some(f) => f
    case None => []
  }

  /** Membership in the `LLMAPIError` subtree. */
  predicate IsApiError(e: LLMError) {
    e.ApiError? || e.RateLimitError? || e.ModelError? || e.TokenLimitError?
  }

  /** `LLMError.__str__`. */
  function BaseString(message: string, details: Fields): (r: string)
    ensures details == [] ==> r == message
    ensures details != [] ==> StartsWith(r, message + " (details: ") && r[|r| - 1] == ')'
  {
    if details != [] then message + " (details: " + Repr(Obj(details)) + ")" else message
  }

  /** The `parts` list that `LLMAPIError.__str__` builds: the message, then
      each of status code, error code and details that is truthy, in that order. */
  function ApiParts(message: string, statusCode: Option<int>, errorCode: Value, details: Fields): (p: seq<string>)
    ensures |p| >= 1 && p[0] == message
    ensures var hasStatus := statusCode.Some? && statusCode.value != 0;
            |p| == 1 + (if hasStatus then 1 else 0) + (if Truthy(errorCode) then 1 else 0)
                     + (if details != [] then 1 else 0)
    ensures statusCode.Some? && statusCode.value != 0 ==> p[1] == "status_code=" + IntToString(statusCode.value)
    ensures Truthy(errorCode) ==>
              p[if statusCode.Some? && statusCode.value != 0 then 2 else 1] == "error_code=" + Show(errorCode)
    ensures details != [] ==> p[|p| - 1] == "details=" + Repr(Obj(details))
  {
    var status := if statusCode.Some? && statusCode.value != 0
                  then ["status_code=" + IntToString(statusCode.value)] else [];
    var code := if Truthy(errorCode) then ["error_code=" + Show(errorCode)] else [];
    var det := if details != [] then ["details=" + Repr(Obj(details))] else [];
    [message] + status + code + det
  }

  /** `LLMAPIError.__str__`. */
  function ApiString(message: string, statusCode: Option<int>, errorCode: Value, details: Fields): string
  {
    var parts := ApiParts(message, statusCode, errorCode, details);
    if |parts| > 1 then parts[0] + " (" + Join(parts[1..], ", ") + ")" else parts[0]
  }

  /** `str(e)`: the `LLMAPIError` family uses its own format, the rest the base one. */
  function ToString(e: LLMError): (r: string)
    ensures !IsApiError(e) ==> r == BaseString(e.message, e.details)
    ensures IsApiError(e) ==> r == ApiString(e.message, e.statusCode, e.errorCode, e.details)
  {
    match e
    case ApiError(m, d, s, c) => ApiString(m, s, c, d)
    case RateLimitError(m, d, s, c, _) => ApiString(m, s, c, d)
    case ModelError(m, d, s, c) => ApiString(m, s, c, d)
    case TokenLimitError(m, d, s, c) => ApiString(m, s, c, d)
    case _ => BaseString(e.message, e.details)
  }

  /** An API error's string is exactly its message when status code, error
      code and details are all falsy, and otherwise starts with the message
      followed by " (". */
  lemma ApiStringBare(message: string, statusCode: Option<int>, errorCode: Value, details: Fields)
    ensures var r := ApiString(message, statusCode, errorCode, details);
            var bare := (statusCode.None? || statusCode.value == 0) && !Truthy(errorCode) && details == [];
            (bare ==> r == message) && (!bare ==> StartsWith(r, message + " ("))
  {
    var p := ApiParts(message, statusCode, errorCode, details);
    var r := ApiString(message, statusCode, errorCode, details);
    if |p| > 1 {
      assert r == (message + " (") + (Join(p[1..], ", ") + ")");
    }
  }

  /** With only a status code set, the string is "message (status_code=N)". */
  lemma ApiStringStatusOnly(message: string, status: int)
    requires status != 0
    ensures ApiString(message, Some(status), Null, []) == message + " (status_code=" + IntToString(status) + ")"
  {
    var p := ApiParts(message, Some(status), Null, []);
    assert p[1..] == ["status_code=" + IntToString(status)];
  }
}
