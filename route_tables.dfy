/** The route tables the two standalone workers register at load time. */
module RouteTables {
  import opened Common
  import opened Routing

  /** The table of the complete worker, in registration order. */
  function CompleteRoutes(): seq<Route> {
    [ Route("GET", "/api/health", "health"),
      Route("POST", "/api/auth/google", "authGoogle"),
      Route("GET", "/api/market/data", "marketData"),
      Route("GET", "/api/portfolio", "portfolio"),
      Route("GET", "/api/trades/recent", "recentTrades"),
      Route("GET", "/api/news", "news"),
      Route("GET", "/api/trading/settings", "getTradingSettings"),
      Route("POST", "/api/trading/settings", "saveTradingSettings"),
      Route("POST", "/api/coinbase/credentials", "saveCredentials"),
      Route("POST", "/api/trading/start", "startTrading"),
      Route("POST", "/api/trading/stop", "stopTrading") ]
  }

  /** The table of the simple worker, in registration order. */
  function SimpleRoutes(): seq<Route> {
    [ Route("GET", "/api/health", "health"),
      Route("POST", "/api/auth/google", "authGoogle"),
      Route("GET", "/api/market/data", "marketData") ]
  }

  /** The registrations of the complete worker, chained on one router. */
  method RegisterComplete() returns (router: Router)
    ensures fresh(router) && router.routes == CompleteRoutes()
  {
    router := new Router();
    var r := router.Get("/api/health", "health");
    r := router.Post("/api/auth/google", "authGoogle");
    r := router.Get("/api/market/data", "marketData");
    r := router.Get("/api/portfolio", "portfolio");
    r := router.Get("/api/trades/recent", "recentTrades");
    r := router.Get("/api/news", "news");
    r := router.Get("/api/trading/settings", "getTradingSettings");
    r := router.Post("/api/trading/settings", "saveTradingSettings");
    r := router.Post("/api/coinbase/credentials", "saveCredentials");
    r := router.Post("/api/trading/start", "startTrading");
    r := router.Post("/api/trading/stop", "stopTrading");
  }

  /** The registrations of the simple worker. */
  method RegisterSimple() returns (router: Router)
    ensures fresh(router) && router.routes == SimpleRoutes()
  {
    router := new Router();
    var r := router.Get("/api/health", "health");
    r := router.Post("/api/auth/google", "authGoogle");
    r := router.Get("/api/market/data", "marketData");
  }

  /** GET and POST on the settings path reach different handlers of the complete worker. */
  lemma SettingsSplitByMethod()
    ensures FirstMatch(CompleteRoutes(), "GET", "/api/trading/settings") == Some(6)
    ensures FirstMatch(CompleteRoutes(), "POST", "/api/trading/settings") == Some(7)
    ensures CompleteRoutes()[6].handler != CompleteRoutes()[7].handler
  {
    ExactMatching(CompleteRoutes(), "GET", "/api/trading/settings");
    ExactMatching(CompleteRoutes(), "POST", "/api/trading/settings");
  }

  /** No route of the complete worker uses a wildcard, so any method and path pair it
      did not register gets 404. */
  lemma CompleteUnregisteredIsNotFound(request: Request, run: (HandlerId, Request) -> Outcome)
    requires request.verb != "OPTIONS"
    requires forall j :: 0 <= j < |CompleteRoutes()| ==>
      CompleteRoutes()[j].verb != request.verb || CompleteRoutes()[j].path != request.path
    ensures Dispatch(CompleteRoutes(), request, run) == NotFound()
  {
    assert WildcardFree(CompleteRoutes());
    ExactDispatch(CompleteRoutes(), request, run);
  }

  /** The simple worker routes exactly its three pairs; anything else but OPTIONS is 404. */
  lemma SimpleRoutesExactly(request: Request, run: (HandlerId, Request) -> Outcome)
    requires request.verb != "OPTIONS"
    ensures FirstMatch(SimpleRoutes(), request.verb, request.path).Some? <==>
      || (request.verb == "GET" && request.path == "/api/health")
      || (request.verb == "POST" && request.path == "/api/auth/google")
      || (request.verb == "GET" && request.path == "/api/market/data")
  {
    assert WildcardFree(SimpleRoutes());
    ExactDispatch(SimpleRoutes(), request, run);
  }

  /** POST on the health path gets 404 from the simple worker, which registered it for GET only. */
  lemma SimpleHealthPostNotFound(headers: map<string, string>, run: (HandlerId, Request) -> Outcome)
    ensures Dispatch(SimpleRoutes(), Request("POST", "/api/health", headers), run) == NotFound()
  {
    SimpleRoutesExactly(Request("POST", "/api/health", headers), run);
  }
}
