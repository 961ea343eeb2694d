/**
 * `HttpAuthFilter`: the route handler that guards the documentation and
 * health routes. The OpenAPI document is served only to the Swagger UI
 * page; the other guarded routes need the API key.
 */
module HttpAuthFilter {
  import opened Outcomes
  import opened Strings

  const ProtectedPaths: seq<string> := ["/swagger-ui", "/q/openapi", "/q/health", "/health"]
  const ValidPassword := "projedata"

  /** What the handler does with a request: pass it on, or end it with a status. */
  datatype Decision = Next | Respond(status: int)

  /** The parts of a request the handler looks at; a missing header is `None`. */
  datatype Request = Request(path: string, referer: Option<string>, apiKeyHeader: Option<string>, apiKeyParam: Option<string>)

  /** Whether the path starts with one of the guarded prefixes. */
  predicate IsProtected(path: string)
  {
    exists i :: 0 <= i < |ProtectedPaths| && StartsWith(path, ProtectedPaths[i])
  }

  /** The `X-API-Key` header, and only without it the `apiKey` query parameter. */
  function ApiKey(request: Request): (k: Option<string>)
    ensures request.apiKeyHeader.Some? ==> k == request.apiKeyHeader
    ensures request.apiKeyHeader.None? ==> k == request.apiKeyParam
  {
    if request.apiKeyHeader.Some? then request.apiKeyHeader else request.apiKeyParam
  }

  /** The handler registered with priority 100. */
  function Handle(request: Request): (d: Decision)
    ensures !IsProtected(request.path) ==> d == Next
    ensures StartsWith(request.path, "/q/openapi") ==>
      (d == Next <==> Contains(request.referer.GetOr(""), "/swagger-ui"))
      && (d != Next ==> d == Respond(403))
    ensures IsProtected(request.path) && !StartsWith(request.path, "/q/openapi") ==>
      (d == Next <==> ApiKey(request) == Some(ValidPassword))
      && (d != Next ==> d == Respond(401))
  {
    var referer := request.referer.GetOr("");
    assert StartsWith(request.path, "/q/openapi") ==> StartsWith(request.path, ProtectedPaths[1]);
    if !IsProtected(request.path) then Next
    else if StartsWith(request.path, "/q/openapi") then
      if Contains(referer, "/swagger-ui") then Next else Respond(403)
    else
      var key := ApiKey(request);
      if key.None? || key.value != ValidPassword then Respond(401) else Next
  }

  /** The OpenAPI document is refused without the Swagger UI referer even with the right key. */
  lemma OpenApiIgnoresKey(path: string, referer: Option<string>, header: Option<string>, param: Option<string>)
    requires StartsWith(path, "/q/openapi")
    ensures Handle(Request(path, referer, header, param)) == Handle(Request(path, referer, None, None))
  {
  }

  /** With the header present the query parameter never matters. */
  lemma HeaderTakesPrecedence(path: string, referer: Option<string>, header: string, param1: Option<string>, param2: Option<string>)
    ensures Handle(Request(path, referer, Some(header), param1)) == Handle(Request(path, referer, Some(header), param2))
  {
  }
}
