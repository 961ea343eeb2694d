/**
 * `errorHandler.ts`: exponential backoff, the retry loop around `fetch`,
 * the error record built from a failed response, and the status texts.
 * Each `fetch` call's outcome is an input: `attempts[i]` is what the
 * i-th call yields. Waiting is recorded, not performed.
 */
module ErrorHandler {
  import opened Outcomes
  import opened Decimal

  /** What one `fetch` call yields: a response, or a thrown network error. */
  datatype Attempt = Response(ok: bool, status: int) | NetworkError(message: string)

  /** What `fetchWithRetry` settles with: the response it returns, or the error it throws. */
  datatype FetchResult = Returned(ok: bool, status: int) | Threw(message: string)

  /** `RetryOptions`: every field may be left out. */
  datatype RetryOptions = RetryOptions(maxRetries: Option<int>, retryDelay: Option<int>, retryableStatuses: Option<seq<int>>)

  datatype RetryConfig = RetryConfig(maxRetries: int, retryDelay: int, retryableStatuses: seq<int>)

  const DefaultRetryOptions := RetryConfig(3, 1000, [408, 429, 500, 502, 503, 504])

  /** `{ ...DEFAULT_RETRY_OPTIONS, ...retryOptions }`: each given field overrides its default. */
  function Resolve(options: RetryOptions): (c: RetryConfig)
    ensures c.maxRetries == options.maxRetries.GetOr(DefaultRetryOptions.maxRetries)
    ensures c.retryDelay == options.retryDelay.GetOr(DefaultRetryOptions.retryDelay)
    ensures c.retryableStatuses == options.retryableStatuses.GetOr(DefaultRetryOptions.retryableStatuses)
  {
    RetryConfig(options.maxRetries.GetOr(DefaultRetryOptions.maxRetries),
                options.retryDelay.GetOr(DefaultRetryOptions.retryDelay),
                options.retryableStatuses.GetOr(DefaultRetryOptions.retryableStatuses))
  }

  function Pow2(n: nat): (p: nat)
    ensures p >= 1
  {
    if n == 0 then 1 else 2 * Pow2(n - 1)
  }

  /** `getRetryDelay`: the base delay doubled once per earlier attempt. */
  function RetryDelay(attempt: nat, baseDelay: int): int
  {
    baseDelay * Pow2(attempt)
  }

  /** Each wait lasts at least as long as the one before it. */
  lemma {:induction false} RetryDelayMonotone(a: nat, b: nat, baseDelay: int)
    requires a <= b && baseDelay >= 0
    ensures RetryDelay(a, baseDelay) <= RetryDelay(b, baseDelay)
    decreases b - a
  {
    if a < b {
      RetryDelayMonotone(a, b - 1, baseDelay);
      assert RetryDelay(b, baseDelay) == 2 * RetryDelay(b - 1, baseDelay);
    }
  }

  /** `isRetryableStatus`. */
  predicate IsRetryableStatus(status: int, retryableStatuses: seq<int>)
  {
    status in retryableStatuses
  }

  /** Whether the loop goes on after this attempt, when it is not the last one. */
  predicate Retries(c: RetryConfig, a: Attempt)
  {
    a.NetworkError? || (!a.ok && IsRetryableStatus(a.status, c.retryableStatuses))
  }

  /** How an attempt settles the call when the loop stops at it. */
  function Settle(a: Attempt): (r: FetchResult)
    ensures a.Response? ==> r == Returned(a.ok, a.status)
    ensures a.NetworkError? ==> r == Threw(a.message)
  {
    match a
    case Response(ok, status) => Returned(ok, status)
    case NetworkError(message) => Threw(message)
  }

  /**
   * The loop from `attempt` on: the result and the number of calls made.
   * It stops at the first attempt that does not call for a retry, or at
   * the last allowed one.
   */
  function RetryFrom(attempts: seq<Attempt>, c: RetryConfig, attempt: nat): (r: (FetchResult, nat))
    requires attempt <= c.maxRetries < |attempts|
    ensures attempt < r.1 <= c.maxRetries + 1
    ensures forall j :: attempt <= j < r.1 - 1 ==> Retries(c, attempts[j])
    ensures r.1 - 1 == c.maxRetries || !Retries(c, attempts[r.1 - 1])
    ensures r.0 == Settle(attempts[r.1 - 1])
    decreases c.maxRetries - attempt
  {
    var a := attempts[attempt];
    if !Retries(c, a) || attempt == c.maxRetries then (Settle(a), attempt + 1)
    else RetryFrom(attempts, c, attempt + 1)
  }

  /** `fetchWithRetry` as a function of the attempt outcomes. */
  function Fetch(attempts: seq<Attempt>, c: RetryConfig): (r: (FetchResult, nat))
    requires c.maxRetries < |attempts|
    ensures r.1 <= c.maxRetries + 1 || r.1 == 0
    ensures c.maxRetries < 0 ==> r == (Threw("Request failed after retries"), 0)
  {
    if c.maxRetries < 0 then (Threw("Request failed after retries"), 0)
    else RetryFrom(attempts, c, 0)
  }

  /** The waits before attempts 1 .. n. */
  function Delays(baseDelay: int, n: nat): (ds: seq<int>)
    ensures |ds| == n && forall k :: 0 <= k < n ==> ds[k] == RetryDelay(k, baseDelay)
  {
    seq(n, k requires 0 <= k < n => RetryDelay(k, baseDelay))
  }

  /**
   * `fetchWithRetry`: at most `maxRetries + 1` calls; waits
   * `getRetryDelay(attempt)` after each call that is retried.
   */
  method FetchWithRetry(attempts: seq<Attempt>, options: RetryOptions)
    returns (result: FetchResult, calls: nat, delays: seq<int>)
    requires Resolve(options).maxRetries < |attempts|
    ensures (result, calls) == Fetch(attempts, Resolve(options))
    ensures calls == 0 ==> delays == []
    ensures calls > 0 ==> delays == Delays(Resolve(options).retryDelay, calls - 1)
  {
    var c := Resolve(options);
    delays := [];
    if c.maxRetries < 0 {
      return Threw("Request failed after retries"), 0, delays;
    }
    var attempt: nat := 0;
    while true
      invariant attempt <= c.maxRetries
      invariant RetryFrom(attempts, c, 0) == RetryFrom(attempts, c, attempt)
      invariant delays == Delays(c.retryDelay, attempt)
      decreases c.maxRetries - attempt
    {
      var a := attempts[attempt];
      if a.Response? && (a.ok || !IsRetryableStatus(a.status, c.retryableStatuses)) {
        return Returned(a.ok, a.status), attempt + 1, delays;
      }
      if attempt == c.maxRetries {
        return Settle(a), attempt + 1, delays;
      }
      delays := delays + [RetryDelay(attempt, c.retryDelay)];
      attempt := attempt + 1;
    }
  }

  /** An ok or non-retryable first response is returned after one call. */
  lemma ReturnsAtOnce(attempts: seq<Attempt>, c: RetryConfig)
    requires 0 <= c.maxRetries < |attempts|
    requires attempts[0].Response? && (attempts[0].ok || !IsRetryableStatus(attempts[0].status, c.retryableStatuses))
    ensures Fetch(attempts, c) == (Returned(attempts[0].ok, attempts[0].status), 1)
  {
  }

  /** The call throws only when every allowed attempt failed and the last was a network error. */
  lemma ThrowsOnlyAtTheEnd(attempts: seq<Attempt>, c: RetryConfig)
    requires 0 <= c.maxRetries < |attempts|
    ensures Fetch(attempts, c).0.Threw? <==>
      (forall j :: 0 <= j < c.maxRetries ==> Retries(c, attempts[j])) && attempts[c.maxRetries].NetworkError?
  {
    var (r, n) := Fetch(attempts, c);
    if (forall j :: 0 <= j < c.maxRetries ==> Retries(c, attempts[j])) {
      assert n - 1 == c.maxRetries;
    }
  }

  /** `ApiError` as `parseErrorResponse` builds it. */
  datatype ApiError = ApiError(message: string, code: Option<string>)

  /** The body of a failed response, as far as `parseErrorResponse` looks at it. */
  datatype ErrorBody =
    | JsonObject(message: Option<string>)
    | JsonString(value: string)
    | PlainText(text: string)
      /** Reading or parsing the body threw. */
    | Unreadable

  /** `parseErrorResponse`: the message from the body, and the status as the code. */
  function ParseErrorResponse(status: int, statusText: string, body: ErrorBody): (e: ApiError)
    ensures e.code == Some(IntToString(status))
    ensures body.JsonObject? && body.message.Some? && body.message.value != "" ==> e.message == body.message.value
    ensures body.JsonObject? && (body.message.None? || body.message.value == "") ==> e.message == "An error occurred"
    ensures body.JsonString? ==> e.message == body.value
    ensures body.PlainText? ==> e.message == if body.text == "" then "An error occurred" else body.text
    ensures body.Unreadable? ==> e.message == "HTTP " + IntToString(status) + ": " + statusText
  {
    var message :=
      match body
      case JsonObject(m) => if m.Some? && m.value != "" then m.value else "An error occurred"
      case JsonString(v) => v
      case PlainText(t) => if t == "" then "An error occurred" else t
      case Unreadable => "HTTP " + IntToString(status) + ": " + statusText;
    ApiError(message, Some(IntToString(status)))
  }

  /** The code field gives the status back. */
  lemma ErrorCodeIsStatus(status: int, statusText: string, body: ErrorBody)
    ensures ParseInt(ParseErrorResponse(status, statusText, body).code.value) == status
  {
    IntToStringRoundTrip(status);
  }

  const StatusMessages: map<int, string> := map[
    400 := "Invalid request. Please check your input.",
    401 := "Authentication required. Please log in.",
    403 := "You do not have permission to perform this action.",
    404 := "The requested resource was not found.",
    408 := "Request timeout. Please try again.",
    409 := "A conflict occurred. The resource may already exist.",
    422 := "Validation error. Please check your input.",
    429 := "Too many requests. Please try again later.",
    500 := "Internal server error. Please try again later.",
    502 := "Bad gateway. The server is temporarily unavailable.",
    503 := "Service unavailable. Please try again later.",
    504 := "Gateway timeout. Please try again."]

  /** `getStatusMessage`: the listed text, or a generic one naming the status. */
  function GetStatusMessage(status: int): (m: string)
    ensures status in StatusMessages ==> m == StatusMessages[status]
    ensures status !in StatusMessages ==> m == "An error occurred (" + IntToString(status) + ")"
  {
    if status in StatusMessages && StatusMessages[status] != "" then StatusMessages[status]
    else "An error occurred (" + IntToString(status) + ")"
  }

  /** Exactly the twelve listed statuses have their own text, every default retryable status among them. */
  lemma StatusTable()
    ensures StatusMessages.Keys == {400, 401, 403, 404, 408, 409, 422, 429, 500, 502, 503, 504}
    ensures forall s :: s in DefaultRetryOptions.retryableStatuses ==> s in StatusMessages
  {
  }
}
