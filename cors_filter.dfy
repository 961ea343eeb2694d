/**
 * `CorsFilter`: answers CORS preflight requests itself. Every other
 * request passes through, and the response side adds nothing.
 */
module CorsFilter {
  import opened Outcomes

  const AllowedOrigins: seq<string> := ["http://localhost:5173", "http://localhost:3000", "http://localhost:8080"]
  const AllowedMethods := "GET, POST, PUT, DELETE, OPTIONS, PATCH"
  const AllowedHeaders := "accept, authorization, content-type, x-requested-with, origin"

  /** The response the filter aborts a request with. */
  datatype Preflight = Preflight(status: int, headers: map<string, string>)

  /** The request filter: `None` lets the request through, otherwise it is answered at once. */
  function Filter(httpMethod: string, origin: Option<string>): (abort: Option<Preflight>)
    ensures httpMethod != "OPTIONS" <==> abort.None?
    ensures abort.Some? ==>
      (abort.value.status == 200 <==> origin.None? || origin.value in AllowedOrigins)
      && (abort.value.status != 200 ==> abort.value.status == 403 && abort.value.headers == map[])
    ensures abort.Some? && abort.value.status == 200 ==>
      var h := abort.value.headers;
      "Access-Control-Allow-Methods" in h && "Access-Control-Allow-Headers" in h
      && "Access-Control-Max-Age" in h && "Access-Control-Allow-Origin" in h
      && h["Access-Control-Allow-Methods"] == AllowedMethods
      && h["Access-Control-Allow-Headers"] == AllowedHeaders
      && h["Access-Control-Max-Age"] == "3600"
      && (origin.Some? ==> h["Access-Control-Allow-Origin"] == origin.value
                           && "Access-Control-Allow-Credentials" in h
                           && h["Access-Control-Allow-Credentials"] == "true")
      && (origin.None? ==> h["Access-Control-Allow-Origin"] == "*" && "Access-Control-Allow-Credentials" !in h)
  {
    if httpMethod != "OPTIONS" then None
    else if origin.None? || origin.value in AllowedOrigins then
      var originHeaders :=
        if origin.Some? then map["Access-Control-Allow-Origin" := origin.value, "Access-Control-Allow-Credentials" := "true"]
        else map["Access-Control-Allow-Origin" := "*"];
      Some(Preflight(200, originHeaders["Access-Control-Allow-Methods" := AllowedMethods]
                                       ["Access-Control-Allow-Headers" := AllowedHeaders]
                                       ["Access-Control-Max-Age" := "3600"]))
    else Some(Preflight(403, map[]))
  }

  /** A listed origin is echoed back, never the wildcard. */
  lemma AllowedOriginEchoed(origin: string)
    requires origin in AllowedOrigins
    ensures var abort := Filter("OPTIONS", Some(origin));
      abort.Some? && abort.value.status == 200 && abort.value.headers["Access-Control-Allow-Origin"] == origin
      && origin != "*"
  {
  }
}
