/** The CORS header builder of the shared library (the CORS protocol of section 3.2
    of the WHATWG Fetch Standard): a fixed header map, echoing the request's origin. */
module Cors {
  import opened Common

  const AllowedHeaders: seq<string> := ["Content-Type", "Authorization", "X-Requested-With", "Accept"]

  /** `parts.join(', ')` */
  function JoinComma(parts: seq<string>): string {
    if |parts| == 0 then ""
    else if |parts| == 1 then parts[0]
    else parts[0] + ", " + JoinComma(parts[1..])
  }

  /** The allowed request headers, joined in their listed order. */
  lemma AllowedHeadersText()
    ensures JoinComma(AllowedHeaders) == "Content-Type" + ", " + "Authorization" + ", " + "X-Requested-With" + ", " + "Accept"
  {
    var a, b, c, d := "Content-Type", "Authorization", "X-Requested-With", "Accept";
    assert AllowedHeaders == [a, b, c, d];
    assert [a, b, c, d][1..] == [b, c, d] && [b, c, d][1..] == [c, d] && [c, d][1..] == [d];
    assert JoinComma([c, d]) == c + ", " + d;
    assert JoinComma([b, c, d]) == b + ", " + (c + ", " + d);
    assert JoinComma([a, b, c, d]) == a + ", " + (b + ", " + (c + ", " + d));
  }

  /** The `{ headers }` holder handleCors returns; it has no status and no body. */
  datatype CorsResult = CorsResult(headers: map<string, string>)

  /** `request.headers.get('Origin') || '*'`: an absent or empty header gives '*'. */
  function AllowedOrigin(request: Request): string {
    if "origin" in request.headers && request.headers["origin"] != "" then request.headers["origin"] else "*"
  }

  /** handleCors */
  function HandleCors(request: Request): (r: CorsResult)
    ensures r.headers.Keys == {"Access-Control-Allow-Origin", "Access-Control-Allow-Methods",
      "Access-Control-Allow-Headers", "Access-Control-Allow-Credentials", "Access-Control-Max-Age"}
    ensures r.headers["Access-Control-Allow-Origin"] ==
      if "origin" in request.headers && request.headers["origin"] != "" then request.headers["origin"] else "*"
    ensures r.headers["Access-Control-Allow-Headers"] ==
      "Content-Type" + ", " + "Authorization" + ", " + "X-Requested-With" + ", " + "Accept"
    ensures r.headers["Access-Control-Allow-Methods"] == "GET, POST, PUT, DELETE, OPTIONS"
    ensures r.headers["Access-Control-Allow-Credentials"] == "true"
    ensures r.headers["Access-Control-Max-Age"] == "86400"
  {
    AllowedHeadersText();
    CorsResult(map[
      "Access-Control-Allow-Origin" := AllowedOrigin(request),
      "Access-Control-Allow-Methods" := "GET, POST, PUT, DELETE, OPTIONS",
      "Access-Control-Allow-Headers" := JoinComma(AllowedHeaders),
      "Access-Control-Allow-Credentials" := "true",
      "Access-Control-Max-Age" := "86400"])
  }

  /** Two requests with the same effective origin get the same headers, whatever
      their method, path and other headers. */
  lemma OnlyOriginMatters(a: Request, b: Request)
    requires AllowedOrigin(a) == AllowedOrigin(b)
    ensures HandleCors(a) == HandleCors(b)
  {
  }

  /** The origin header is echoed exactly when it is present and non-empty. */
  lemma OriginEchoed(request: Request, origin: string)
    requires origin != ""
    ensures HandleCors(request.(headers := request.headers["origin" := origin])).headers["Access-Control-Allow-Origin"] == origin
    ensures "origin" !in request.headers ==> HandleCors(request).headers["Access-Control-Allow-Origin"] == "*"
  {
  }
}
