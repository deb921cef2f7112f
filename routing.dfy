/** The hand-written router of the two standalone workers: an append-only route
    table, a CORS preflight short-circuit, first-match dispatch with a three-way
    path rule, 500 on a handler exception and 404 when nothing matches. */
module Routing {
  import opened Common

  /** The name of a handler function registered with the router. */
  type HandlerId = string

  /** `{ method, path, handler }` as pushed onto `routes`; `verb` is the method. */
  datatype Route = Route(verb: string, path: string, handler: HandlerId)

  /** What awaiting a handler gives: its response, or the message of what it threw. */
  datatype Outcome = Returned(response: Response) | Threw(message: string)

  /** The module-level `corsHeaders` of the router files. */
  function RouterCorsHeaders(): (h: map<string, string>)
    ensures h.Keys == {"Access-Control-Allow-Origin", "Access-Control-Allow-Methods",
      "Access-Control-Allow-Headers", "Access-Control-Max-Age"}
    ensures h["Access-Control-Allow-Origin"] == "*" && h["Access-Control-Max-Age"] == "86400"
    ensures h["Access-Control-Allow-Headers"] == "Content-Type, Authorization"
    ensures h["Access-Control-Allow-Methods"] == "GET, POST, PUT, DELETE, OPTIONS"
  {
    map[
      "Access-Control-Allow-Origin" := "*",
      "Access-Control-Allow-Methods" := "GET, POST, PUT, DELETE, OPTIONS",
      "Access-Control-Allow-Headers" := "Content-Type, Authorization",
      "Access-Control-Max-Age" := "86400"]
  }

  /** The router files' handleCors: an empty 204 carrying `corsHeaders`. */
  function HandleCors(request: Request): (r: Response)
    ensures r.status == 204 && r.body == NoBody && r.headers == RouterCorsHeaders()
  {
    Response(204, RouterCorsHeaders(), NoBody)
  }

  /** A 500 with `{ error: message }` as JSON and `corsHeaders`. */
  function ServerError(message: string): (r: Response)
    ensures r.status == 500 && r.body == JsonBody(ErrorJson(message))
    ensures r.headers.Keys == RouterCorsHeaders().Keys + {"Content-Type"}
    ensures r.headers["Content-Type"] == "application/json"
    ensures forall k :: k in RouterCorsHeaders() ==> r.headers[k] == RouterCorsHeaders()[k]
  {
    Response(500, map["Content-Type" := "application/json"] + RouterCorsHeaders(), JsonBody(ErrorJson(message)))
  }

  /** The 404 'Not Found' text response with `corsHeaders`. */
  function NotFound(): (r: Response)
    ensures r.status == 404 && r.body == Text("Not Found") && r.headers == RouterCorsHeaders()
  {
    Response(404, RouterCorsHeaders(), Text("Not Found"))
  }

  /** The path rule: exact, '*', or a trailing '*' whose prefix starts the pathname. */
  predicate PathMatches(pattern: string, pathname: string) {
    || pattern == pathname
    || pattern == "*"
    || (|pattern| > 0 && pattern[|pattern| - 1] == '*' && pattern[..|pattern| - 1] <= pathname)
  }

  /** A route serves a request when its method is the request's or '*', and its path matches. */
  predicate Matches(route: Route, verb: string, pathname: string) {
    (route.verb == verb || route.verb == "*") && PathMatches(route.path, pathname)
  }

  /** The index of the first route at or after `from`, in registration order, that serves the request. */
  function FirstMatchFrom(routes: seq<Route>, verb: string, pathname: string, from: nat): (r: Option<nat>)
    requires from <= |routes|
    ensures r.Some? ==> from <= r.value < |routes| && Matches(routes[r.value], verb, pathname)
    ensures r.Some? ==> forall j :: from <= j < r.value ==> !Matches(routes[j], verb, pathname)
    ensures r.None? <==> forall j :: from <= j < |routes| ==> !Matches(routes[j], verb, pathname)
    decreases |routes| - from
  {
    if from == |routes| then None
    else if Matches(routes[from], verb, pathname) then Some(from)
    else FirstMatchFrom(routes, verb, pathname, from + 1)
  }

  /** The index of the first route, in registration order, that serves the request. */
  function FirstMatch(routes: seq<Route>, verb: string, pathname: string): (r: Option<nat>)
    ensures r.Some? ==> r.value < |routes| && Matches(routes[r.value], verb, pathname)
    ensures r.Some? ==> forall j :: 0 <= j < r.value ==> !Matches(routes[j], verb, pathname)
    ensures r.None? <==> forall j :: 0 <= j < |routes| ==> !Matches(routes[j], verb, pathname)
  {
    FirstMatchFrom(routes, verb, pathname, 0)
  }

  /** What `handle` answers: the preflight for OPTIONS, else the first matching
      route's outcome (500 if it throws), else 404. */
  function Dispatch(routes: seq<Route>, request: Request, run: (HandlerId, Request) -> Outcome): Response {
    if request.verb == "OPTIONS" then HandleCors(request)
    else
      match FirstMatch(routes, request.verb, request.path)
      case None => NotFound()
      case Some(i) =>
        match run(routes[i].handler, request)
        case Returned(response) => response
        case Threw(message) => ServerError(message)
  }

  /** The object createRouter returns, closing over its `routes` array. */
  class Router {
    var routes: seq<Route>

    /** createRouter */
    constructor()
      ensures routes == []
    {
      routes := [];
    }

    /** The shared body of the registration methods. */
    method Register(verb: string, path: string, handler: HandlerId) returns (r: Router)
      modifies this
      ensures routes == old(routes) + [Route(verb, path, handler)] && r == this
    {
      routes := routes + [Route(verb, path, handler)];
      r := this;
    }

    /** router.get */
    method Get(path: string, handler: HandlerId) returns (r: Router)
      modifies this
      ensures routes == old(routes) + [Route("GET", path, handler)] && r == this
    {
      r := Register("GET", path, handler);
    }

    /** router.post */
    method Post(path: string, handler: HandlerId) returns (r: Router)
      modifies this
      ensures routes == old(routes) + [Route("POST", path, handler)] && r == this
    {
      r := Register("POST", path, handler);
    }

    /** router.put */
    method Put(path: string, handler: HandlerId) returns (r: Router)
      modifies this
      ensures routes == old(routes) + [Route("PUT", path, handler)] && r == this
    {
      r := Register("PUT", path, handler);
    }

    /** router.delete */
    method Delete(path: string, handler: HandlerId) returns (r: Router)
      modifies this
      ensures routes == old(routes) + [Route("DELETE", path, handler)] && r == this
    {
      r := Register("DELETE", path, handler);
    }

    /** router.options: such a route is stored but never dispatched. */
    method Options(path: string, handler: HandlerId) returns (r: Router)
      modifies this
      ensures routes == old(routes) + [Route("OPTIONS", path, handler)] && r == this
    {
      r := Register("OPTIONS", path, handler);
    }

    /** router.all */
    method All(path: string, handler: HandlerId) returns (r: Router)
      modifies this
      ensures routes == old(routes) + [Route("*", path, handler)] && r == this
    {
      r := Register("*", path, handler);
    }

    /** router.handle, with its loop over the routes and early return; `run` awaits a handler. */
    method Handle(request: Request, run: (HandlerId, Request) -> Outcome) returns (response: Response)
      ensures response == Dispatch(routes, request, run)
    {
      if request.verb == "OPTIONS" {
        return HandleCors(request);
      }
      var i := 0;
      while i < |routes|
        invariant 0 <= i <= |routes|
        invariant forall j :: 0 <= j < i ==> !Matches(routes[j], request.verb, request.path)
      {
        var route := routes[i];
        if Matches(route, request.verb, request.path) {
          var outcome := run(route.handler, request);
          if outcome.Threw? {
            return ServerError(outcome.message);
          }
          return outcome.response;
        }
        i := i + 1;
      }
      response := NotFound();
    }
  }

  /** OPTIONS is answered before lookup: no route, whatever its method, is consulted. */
  lemma PreflightFirst(routes: seq<Route>, request: Request, run: (HandlerId, Request) -> Outcome)
    requires request.verb == "OPTIONS"
    ensures Dispatch(routes, request, run) == HandleCors(request)
    ensures forall more :: Dispatch(routes + more, request, run) == Dispatch(routes, request, run)
  {
  }

  /** First match wins: routes registered after a matching one are never consulted. */
  lemma LaterRoutesShadowed(routes: seq<Route>, more: seq<Route>, verb: string, pathname: string)
    requires FirstMatch(routes, verb, pathname).Some?
    ensures FirstMatch(routes + more, verb, pathname) == FirstMatch(routes, verb, pathname)
  {
    var i := FirstMatch(routes, verb, pathname).value;
    assert (routes + more)[i] == routes[i];
    assert forall j :: 0 <= j < i ==> (routes + more)[j] == routes[j];
  }

  /** A route table with no wildcard method, no '*' path and no path ending in '*'. */
  predicate WildcardFree(routes: seq<Route>) {
    forall j :: 0 <= j < |routes| ==> WildcardFreeRoute(routes[j])
  }

  predicate WildcardFreeRoute(route: Route) {
    && route.verb != "*"
    && route.path != "*"
    && (|route.path| == 0 || route.path[|route.path| - 1] != '*')
  }

  /** Without wildcards a route serves exactly its own method and path. */
  lemma ExactMatching(routes: seq<Route>, verb: string, pathname: string)
    requires WildcardFree(routes)
    ensures forall j :: 0 <= j < |routes| ==>
      (Matches(routes[j], verb, pathname) <==> routes[j].verb == verb && routes[j].path == pathname)
  {

  }

  /** Without wildcards, a request other than OPTIONS reaches a handler exactly when
      some route was registered for its method and path, and otherwise gets 404. */
  lemma ExactDispatch(routes: seq<Route>, request: Request, run: (HandlerId, Request) -> Outcome)
    requires WildcardFree(routes) && request.verb != "OPTIONS"
    ensures FirstMatch(routes, request.verb, request.path).Some? <==>
      exists j :: 0 <= j < |routes| && routes[j].verb == request.verb && routes[j].path == request.path
    ensures (forall j :: 0 <= j < |routes| ==> routes[j].verb != request.verb || routes[j].path != request.path) ==>
      Dispatch(routes, request, run) == NotFound()
  {
    ExactMatching(routes, request.verb, request.path);
  }
}
