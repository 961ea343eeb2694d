/**
 * `AuthFilter`: the JAX-RS request filter that guards the same routes as
 * `HttpAuthFilter`, matching the prefixes anywhere in the path or in the
 * request URI, and always by API key.
 */
module AuthFilter {
  import opened Outcomes
  import opened Strings
  import HttpAuthFilter

  const ProtectedPaths: seq<string> := ["/swagger-ui", "/q/openapi", "/q/health", "/health"]
  const ValidPassword := "projedata"

  datatype Request = Request(path: string, requestUri: string, apiKeyHeader: Option<string>, apiKeyParam: Option<string>)

  /** Whether some guarded prefix starts or occurs in the path or the request URI. */
  predicate IsProtected(request: Request)
  {
    exists i :: 0 <= i < |ProtectedPaths| &&
      (StartsWith(request.path, ProtectedPaths[i]) || StartsWith(request.requestUri, ProtectedPaths[i])
       || Contains(request.path, ProtectedPaths[i]) || Contains(request.requestUri, ProtectedPaths[i]))
  }

  /** The status the filter aborts with, or `None` when the request goes on. */
  function Filter(request: Request): (abort: Option<int>)
    ensures !IsProtected(request) ==> abort.None?
    ensures IsProtected(request) ==>
      (abort.None? <==> (if request.apiKeyHeader.Some? then request.apiKeyHeader else request.apiKeyParam) == Some(ValidPassword))
    ensures abort.Some? ==> abort.value == 401
  {
    if !IsProtected(request) then None
    else
      var key := if request.apiKeyHeader.Some? then request.apiKeyHeader else request.apiKeyParam;
      if key.None? || key.value != ValidPassword then Some(401) else None
  }

  /** The prefix tests add nothing: a request is guarded iff a prefix occurs in its path or URI. */
  lemma ProtectedIffOccurs(request: Request)
    ensures IsProtected(request) <==>
      exists i :: 0 <= i < |ProtectedPaths| &&
        (Contains(request.path, ProtectedPaths[i]) || Contains(request.requestUri, ProtectedPaths[i]))
  {
    forall i | 0 <= i < |ProtectedPaths| && StartsWith(request.path, ProtectedPaths[i])
      ensures Contains(request.path, ProtectedPaths[i])
    {
      StartsWithContains(request.path, ProtectedPaths[i]);
    }
    forall i | 0 <= i < |ProtectedPaths| && StartsWith(request.requestUri, ProtectedPaths[i])
      ensures Contains(request.requestUri, ProtectedPaths[i])
    {
      StartsWithContains(request.requestUri, ProtectedPaths[i]);
    }
  }

  /** Every path the route handler guards is guarded here too, and more: "/health" deep inside a path counts. */
  lemma GuardsAtLeastTheHandlerRoutes(request: Request)
    requires HttpAuthFilter.IsProtected(request.path)
    ensures IsProtected(request)
  {
    var i :| 0 <= i < |HttpAuthFilter.ProtectedPaths| && StartsWith(request.path, HttpAuthFilter.ProtectedPaths[i]);
    assert StartsWith(request.path, ProtectedPaths[i]);
  }

  /** A path that only contains a guarded prefix inside it is guarded here but not by the route handler. */
  lemma GuardsMoreThanTheHandler()
    ensures var request := Request("/api/health", "/api/health", None, None);
      IsProtected(request) && !HttpAuthFilter.IsProtected(request.path)
  {
    var path := "/api/health";
    ContainsInside("/api", "/health", "");
    assert "/api" + "/health" + "" == path;
    assert Contains(path, ProtectedPaths[3]);
    forall i | 0 <= i < |HttpAuthFilter.ProtectedPaths|
      ensures !StartsWith(path, HttpAuthFilter.ProtectedPaths[i])
    {
      var prefix := HttpAuthFilter.ProtectedPaths[i];
      assert prefix[1] != 'a' && path[1] == 'a';
    }
  }
}
