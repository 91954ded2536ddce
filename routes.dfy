/** routes/routes.go: the route table Setup registers, and the index page handler, which
    lists every registered route except the static-file ones.

    gin.Engine.Routes() reports the registered routes in an order of gin's own making, so
    the list the index handler receives is an input here. */
module Routes {
  import opened Auth

  datatype Method = GET | POST | PUT | DELETE | HEAD

  /** The handler at the end of a route's chain. */
  datatype Handler =
    | StaticFiles
    | Login | Register | GetAllUsers | GetUserById | DeleteUser | UpdateUser
    | GetAllHoldings | AddHoldings | GetHoldingById | DeleteHolding | UpdateHolding
    | HoldingsByTicker | HoldingsByAccount
    | IndexPage

  /** A registration: method, path, whether AuthMiddleware runs before the handler, handler. */
  datatype Route = Route(verb: Method, path: string, guarded: bool, handler: Handler)

  /** gin.RouteInfo: what Routes() reports of a registration. */
  datatype RouteInfo = RouteInfo(verb: Method, path: string, handler: Handler)

  function Info(r: Route): RouteInfo {
    RouteInfo(r.verb, r.path, r.handler)
  }

  /** Setup's registrations in order: router.Static registers GET and HEAD on each static
      directory's catch-all path; then the user and holdings routes, every one but login,
      registration and the user update behind AuthMiddleware; then the index page. */
  function RouteTableAsWritten(): (rs: seq<Route>)
    ensures |rs| == 20
  {
    [ Route(GET, "/css/*filepath", false, StaticFiles),
      Route(HEAD, "/css/*filepath", false, StaticFiles),
      Route(GET, "/js/*filepath", false, StaticFiles),
      Route(HEAD, "/js/*filepath", false, StaticFiles),
      Route(GET, "/images/*filepath", false, StaticFiles),
      Route(HEAD, "/images/*filepath", false, StaticFiles),
      Route(POST, "/users/login", false, Login),
      Route(POST, "/users/register", false, Register),
      Route(GET, "/users/", true, GetAllUsers),
      Route(GET, "/users/id/:_id", true, GetUserById),
      Route(DELETE, "/users/id/:_id", true, DeleteUser),
      Route(PUT, "/users/id/:_id", false, UpdateUser),
      Route(GET, "/holdings/", true, GetAllHoldings),
      Route(POST, "/holdings/", true, AddHoldings),
      Route(GET, "/holdings/id/:_id", true, GetHoldingById),
      Route(DELETE, "/holdings/id/:_id", true, DeleteHolding),
      Route(PUT, "/holdings/id/:_id", true, UpdateHolding),
      Route(GET, "/holdings/ticker/:ticker", true, HoldingsByTicker),
      Route(GET, "/holdings/account/:account", true, HoldingsByAccount),
      Route(GET, "/", false, IndexPage) ]
  }

  /** The user update is registered without AuthMiddleware: anyone may replace any user,
      password hash included, knowing only the id. */
  lemma UpdateUserUnguarded()
    ensures Route(PUT, "/users/id/:_id", false, UpdateUser) in RouteTableAsWritten()
    ensures forall r :: r in RouteTableAsWritten() && r.handler == UpdateUser ==> !r.guarded
  {
    var rs := RouteTableAsWritten();
    assert rs[11] == Route(PUT, "/users/id/:_id", false, UpdateUser);
    forall r | r in rs && r.handler == UpdateUser ensures !r.guarded {
      var i :| 0 <= i < |rs| && rs[i] == r;
      assert i == 11;
    }
  }

  /** Which registrations need a bearer token: all but the static files, the index page,
      login and registration. */
  predicate NeedsToken(h: Handler) {
    !(h.StaticFiles? || h.IndexPage? || h.Login? || h.Register?)
  }

  /** The route table with the user update behind AuthMiddleware like its siblings. */
  function RouteTable(): (rs: seq<Route>)
    ensures |rs| == |RouteTableAsWritten()|
    ensures forall i :: 0 <= i < |rs| ==> Info(rs[i]) == Info(RouteTableAsWritten()[i])
  {
    RouteTableAsWritten()[11 := Route(PUT, "/users/id/:_id", true, UpdateUser)]
  }

  /** In the corrected table a route is guarded exactly when its handler needs a token. */
  lemma RouteTableGuardsExactly()
    ensures forall r :: r in RouteTable() ==> (r.guarded <==> NeedsToken(r.handler))
  {
    var rs := RouteTable();
    forall r | r in rs ensures r.guarded <==> NeedsToken(r.handler) {
      var i :| 0 <= i < |rs| && rs[i] == r;
    }
  }

  // ---------------------------------------------------------------------------
  // The index page
  // ---------------------------------------------------------------------------

  /** The path prefixes the index page leaves out. */
  const StaticPrefixes: seq<string> := ["/css", "/js", "/images"]

  /** Whether `path` starts with one of `prefixes` (strings.HasPrefix, so "/jsx" starts
      with "/js"). */
  predicate StartsWithAny(path: string, prefixes: seq<string>) {
    exists i :: 0 <= i < |prefixes| && HasPrefix(path, prefixes[i])
  }

  /** The routes the index page lists: those whose path starts with no static prefix, in
      the order Routes() gave them. */
  function ApiRoutes(routes: seq<RouteInfo>): (r: seq<RouteInfo>)
    ensures |r| <= |routes|
  {
    if routes == [] then []
    else
      var last := routes[|routes| - 1];
      ApiRoutes(routes[..|routes| - 1]) + (if StartsWithAny(last.path, StaticPrefixes) then [] else [last])
  }

  /** The index handler's loop over Routes(): for each route, the inner loop looks for a
      static prefix and stops at the first; routes without one are appended. */
  method IndexRoutes(allRoutes: seq<RouteInfo>) returns (apiRoutes: seq<RouteInfo>)
    ensures apiRoutes == ApiRoutes(allRoutes)
  {
    apiRoutes := [];
    var staticPrefixes := StaticPrefixes;
    var n := 0;
    while n < |allRoutes|
      invariant 0 <= n <= |allRoutes|
      invariant apiRoutes == ApiRoutes(allRoutes[..n])
    {
      var route := allRoutes[n];
      var includeRoute := true;
      var k := 0;
      while k < |staticPrefixes|
        invariant 0 <= k <= |staticPrefixes|
        invariant includeRoute <==> forall j :: 0 <= j < k ==> !HasPrefix(route.path, staticPrefixes[j])
        invariant !includeRoute ==> StartsWithAny(route.path, staticPrefixes)
      {
        if HasPrefix(route.path, staticPrefixes[k]) {
          includeRoute := false;
          break;
        }
        k := k + 1;
      }
      assert allRoutes[..n + 1][..n] == allRoutes[..n];
      if includeRoute {
        apiRoutes := apiRoutes + [route];
      }
      n := n + 1;
    }
    assert allRoutes[..n] == allRoutes;
  }

  /** A route is listed iff Routes() reported it and its path has no static prefix. */
  lemma {:induction false} ApiRoutesMembers(routes: seq<RouteInfo>, r: RouteInfo)
    ensures r in ApiRoutes(routes) <==> r in routes && !StartsWithAny(r.path, StaticPrefixes)
    decreases |routes|
  {
    if routes != [] {
      var init := routes[..|routes| - 1];
      ApiRoutesMembers(init, r);
      assert routes == init + [routes[|routes| - 1]];
    }
  }

  /** Listing keeps order: the listing of a concatenation is the concatenation of listings. */
  lemma {:induction false} ApiRoutesAppend(a: seq<RouteInfo>, b: seq<RouteInfo>)
    ensures ApiRoutes(a + b) == ApiRoutes(a) + ApiRoutes(b)
    decreases |b|
  {
    if b == [] {
      assert a + b == a;
    } else {
      var init := b[..|b| - 1];
      assert a + b == (a + init) + [b[|b| - 1]];
      assert (a + b)[..|a + b| - 1] == a + init;
      ApiRoutesAppend(a, init);
    }
  }

  /** Listing twice lists nothing more. */
  lemma {:induction false} ApiRoutesIdempotent(routes: seq<RouteInfo>)
    ensures ApiRoutes(ApiRoutes(routes)) == ApiRoutes(routes)
    decreases |routes|
  {
    if routes != [] {
      var init := routes[..|routes| - 1];
      var last := routes[|routes| - 1];
      ApiRoutesIdempotent(init);
      var tail := if StartsWithAny(last.path, StaticPrefixes) then [] else [last];
      ApiRoutesAppend(ApiRoutes(init), tail);
      if tail != [] {
        assert ApiRoutes(tail) == ApiRoutes([]) + [last] by {
          assert tail[..0] == [];
        }
      }
    }
  }

  /** Any path beginning with "/js", such as "/jsx", is left out along with the scripts. */
  lemma PrefixNotSegment(path: string)
    requires HasPrefix(path, "/js")
    ensures RouteInfo(GET, path, IndexPage) !in ApiRoutes([RouteInfo(GET, path, IndexPage)])
  {
    ApiRoutesMembers([RouteInfo(GET, path, IndexPage)], RouteInfo(GET, path, IndexPage));
    assert HasPrefix(path, StaticPrefixes[1]);
  }

  /** A path that starts `/u` or `/h`, or is the root, starts with no static prefix. */
  lemma NotStaticPath(path: string)
    requires path == "/" || (|path| >= 2 && path[0] == '/' && (path[1] == 'u' || path[1] == 'h'))
    ensures !StartsWithAny(path, StaticPrefixes)
  {
    forall j | 0 <= j < |StaticPrefixes| ensures !HasPrefix(path, StaticPrefixes[j]) {
      assert |StaticPrefixes[j]| >= 2 && StaticPrefixes[j][1] in {'c', 'j', 'i'};
    }
  }

  /** The first six registrations of the table are the static ones: exactly those paths
      start with a static prefix. */
  lemma StaticRegistrations(i: nat)
    requires i < |RouteTableAsWritten()|
    ensures StartsWithAny(RouteTableAsWritten()[i].path, StaticPrefixes) <==> i < 6
    ensures RouteTableAsWritten()[i].handler == StaticFiles <==> i < 6
  {
    var path := RouteTableAsWritten()[i].path;
    if i < 2 {
      assert HasPrefix(path, StaticPrefixes[0]);
    } else if i < 4 {
      assert HasPrefix(path, StaticPrefixes[1]);
    } else if i < 6 {
      assert HasPrefix(path, StaticPrefixes[2]);
    } else {
      NotStaticPath(path);
    }
  }

  /** Whatever order Routes() reports the registrations in, the index lists every API route
      and the index page itself, and no static route. */
  lemma IndexListsTheApi(allRoutes: seq<RouteInfo>, r: Route)
    requires forall x :: x in allRoutes <==> exists y :: y in RouteTableAsWritten() && x == Info(y)
    requires r in RouteTableAsWritten()
    ensures Info(r) in ApiRoutes(allRoutes) <==> r.handler != StaticFiles
  {
    ApiRoutesMembers(allRoutes, Info(r));
    var rs := RouteTableAsWritten();
    var i :| 0 <= i < |rs| && rs[i] == r;
    StaticRegistrations(i);
  }
}
