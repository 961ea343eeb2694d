/**
 * `api.ts`: the base URL the front-end talks to, how a request URL is
 * formed, and how a failed call becomes a `ResponseError`.
 */
module ApiClient {
  import opened Outcomes
  import opened Strings
  import opened ErrorHandler

  const DefaultApiUrl := "http://localhost:8081/api/v1"

  /** `raw.replace(/\/+$/, '')`: every trailing slash goes. */
  function TrimTrailingSlashes(s: string): (r: string)
    ensures |r| <= |s| && r == s[..|r|]
    ensures r == [] || r[|r| - 1] != '/'
    ensures forall i :: |r| <= i < |s| ==> s[i] == '/'
    decreases |s|
  {
    if |s| > 0 && s[|s| - 1] == '/' then
      var r := TrimTrailingSlashes(s[..|s| - 1]);
      assert s[..|s| - 1][..|r|] == s[..|r|];
      r
    else s
  }

  /** `.../api` becomes `.../api/v1`; anything else is left as it is. */
  function AddVersion(n: string): string
  {
    if EndsWith(n, "/api") && !EndsWith(n, "/api/v1") then n + "/v1" else n
  }

  /** The second test is redundant: a URL ending in "/api" cannot end in "/api/v1". */
  lemma ApiSuffixExcludesVersion(n: string)
    requires EndsWith(n, "/api")
    ensures !EndsWith(n, "/api/v1")
  {
    assert n[|n| - 1] == n[|n| - 4..][3] == 'i';
    assert |n| >= 7 ==> n[|n| - 7..][6] == n[|n| - 1];
  }

  lemma AppendVersionEnds(n: string)
    requires EndsWith(n, "/api")
    ensures EndsWith(n + "/v1", "/api/v1")
  {
    var m := n + "/v1";
    assert m[|m| - 7..] == n[|n| - 4..] + "/v1";
  }

  /** A URL ending in "/api" or "/api/v1" ends in "/api/v1" afterwards, and normalising twice changes nothing. */
  lemma AddVersionNormalises(n: string)
    ensures EndsWith(n, "/api") || EndsWith(n, "/api/v1") ==> EndsWith(AddVersion(n), "/api/v1")
    ensures AddVersion(AddVersion(n)) == AddVersion(n)
  {
    if EndsWith(n, "/api") {
      ApiSuffixExcludesVersion(n);
      AppendVersionEnds(n);
    }
  }

  /** `API_BASE_URL`: `VITE_API_URL` (or the default when unset or empty), trimmed and versioned. */
  function ModuleBaseUrl(env: Option<string>): (url: string)
    ensures url == [] || url[|url| - 1] != '/'
  {
    var raw := if env.Some? && env.value != "" then env.value else DefaultApiUrl;
    var normalized := TrimTrailingSlashes(raw);
    var url := AddVersion(normalized);
    if url != normalized then
      assert url == normalized + "/v1";
      assert url[|url| - 1] == '1';
      url
    else url
  }

  /** The `ApiClient` constructor: strips one trailing slash, then versions. */
  function ConstructorBaseUrl(baseUrl: string): string
  {
    var normalized := if EndsWith(baseUrl, "/") then baseUrl[..|baseUrl| - 1] else baseUrl;
    AddVersion(normalized)
  }

  /** The shared client is built from `API_BASE_URL`; normalising it again leaves it as it is. */
  lemma ConstructorKeepsModuleUrl(env: Option<string>)
    ensures ConstructorBaseUrl(ModuleBaseUrl(env)) == ModuleBaseUrl(env)
  {
    var url := ModuleBaseUrl(env);
    assert |url| >= 1 ==> url[|url| - 1..][0] == url[|url| - 1];
    var raw := if env.Some? && env.value != "" then env.value else DefaultApiUrl;
    AddVersionNormalises(TrimTrailingSlashes(raw));
  }

  /** The constructor strips only one slash where the module level strips them all. */
  lemma ConstructorStripsOneSlash()
    ensures ConstructorBaseUrl("h/api//") == "h/api/"
    ensures ModuleBaseUrl(Some("h/api//")) == "h/api/v1"
  {
    assert "h/api//"[..6] == "h/api/";
    assert !EndsWith("h/api/", "/api") by {
      assert "h/api/"[2..] != "/api";
    }
    assert TrimTrailingSlashes("h/api/") == TrimTrailingSlashes("h/api");
    assert "h/api/"[..5] == "h/api";
    assert "h/api"[1..] == "/api";
    ApiSuffixExcludesVersion("h/api");
  }

  /** The request URL: the base, one slash, and the endpoint without its own leading slash. */
  function RequestUrl(baseUrl: string, endpoint: string): (url: string)
    ensures url == baseUrl + "/" + (if StartsWith(endpoint, "/") then endpoint[1..] else endpoint)
  {
    if StartsWith(endpoint, "/") then
      assert endpoint == "/" + endpoint[1..];
      baseUrl + endpoint
    else baseUrl + ("/" + endpoint)
  }

  /** "x" and "/x" name the same URL. */
  lemma LeadingSlashOptional(baseUrl: string, endpoint: string)
    requires !StartsWith(endpoint, "/")
    ensures RequestUrl(baseUrl, "/" + endpoint) == RequestUrl(baseUrl, endpoint)
  {
    assert ("/" + endpoint)[1..] == endpoint;
  }

  datatype ResponseError = ResponseError(message: string, status: int, apiError: ApiError)

  /** How `request` settles, given the result of `fetchWithRetry`. */
  datatype RequestOutcome = Success(status: int) | Failure(error: ResponseError)

  /**
   * `request`: a non-ok response is a `ResponseError` with its status and
   * the parsed body; a thrown error becomes status 0 with code
   * NETWORK_ERROR.
   */
  function Request(result: FetchResult, statusText: string, body: ErrorBody): (o: RequestOutcome)
    ensures result.Returned? && result.ok ==> o == Success(result.status)
    ensures result.Returned? && !result.ok ==>
      o.Failure? && o.error.status == result.status
      && o.error.apiError == ParseErrorResponse(result.status, statusText, body)
      && o.error.message == o.error.apiError.message
    ensures result.Threw? ==>
      o == Failure(ResponseError(result.message, 0, ApiError(result.message, Some("NETWORK_ERROR"))))
  {
    match result
    case Returned(ok, status) =>
      if !ok then
        var e := ParseErrorResponse(status, statusText, body);
        Failure(ResponseError(e.message, status, e))
      else Success(status)
    case Threw(message) => Failure(ResponseError(message, 0, ApiError(message, Some("NETWORK_ERROR"))))
  }

  /** With real HTTP statuses, status 0 marks exactly the calls that never got a response. */
  lemma StatusZeroMeansNoResponse(result: FetchResult, statusText: string, body: ErrorBody)
    requires result.Returned? ==> result.status != 0
    ensures var o := Request(result, statusText, body);
      (o.Failure? && o.error.status == 0) <==> result.Threw?
  {
  }
}
