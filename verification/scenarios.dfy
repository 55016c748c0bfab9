/**
 * Client code replaying the repository's own test scenarios against the model:
 * what a caller can conclude from the contracts alone.
 */
module Scenarios {
  import opened Wrappers
  import opened Http
  import opened Allow
  import opened Registry
  import opened Pipeline
  import opened Koochik

  /** A fresh application with the global middleware Dummy given once as a list and once as a single name. */
  method GlobalDummies() returns (app: Application)
    ensures fresh(app) && fresh(app.router)
    ensures app.router.Valid() && app.router.routes == [] && app.router.currentGroupChain == []
    ensures app.middlewares == ["Dummy", "Dummy"] && app.middlewareGroups == map[]
    ensures app.customNotFoundHandler == None && app.customMethodNotAllowedHandler == None
  {
    var router := new Router();
    app := new Application(router);
    app.Middleware(Many(["Dummy"]));
    app.Middleware(One("Dummy"));
  }

  /** The callback of the group-array test: one route, GET "/middleware-test". */
  const ArrayCallback: seq<Step> := [Add(GET, "/middleware-test", Closure(1), [], [])]

  lemma ArrayScript()
    ensures AttachedMiddlewares(ArrayCallback) == [] && AttachedNames(ArrayCallback) == []
    ensures Registered(ArrayCallback, "/group-array") == [Registration(GET, "/middleware-test", Closure(1), [], [], [])]
  {
    var callback := ArrayCallback;
    assert callback[1..] == [];
    assert AttachedMiddlewares(callback) == [] + AttachedMiddlewares([]);
    assert AttachedNames(callback) == [] + AttachedNames([]);
    assert Registered(callback, "/group-array")
        == [Registration(GET, "/middleware-test", Closure(1), [], [], [])] + Registered([], "/group-array");
  }

  /**
   * The global middleware, then a group registering one route in its callback;
   * the group's own middleware is attached only after the callback returned.
   */
  method GroupArraySetup() returns (app: Application, route: Route, g: Group)
    ensures app.middlewares == ["Dummy", "Dummy"]
    ensures route.groups == [g] && route.middlewares == [] && route.middlewareGroups == []
    ensures g.middlewares == ["Sample"] && g.middlewareGroups == []
    ensures route.uri == "/group-array/middleware-test"
  {
    assert "/group-array" + "/middleware-test" == "/group-array/middleware-test";
    app := GlobalDummies();
    ghost var reg := Registration(GET, "/middleware-test", Closure(1), [], [], []);
    ArrayScript();
    g := app.Group("/group-array", ArrayCallback);
    route := app.router.routes[0];
    assert [] + [g] == [g];
    assert RegisteredAs(route, reg, [g]);
    g.Middleware(Many(["Sample"]));
    assert Prefixes([g]) == "/group-array" by {
      assert [g][..0] == [];
    }
  }

  /** The outer callback of the nested-group test: a router group "/sub-group" registering GET "/test", then given Demo. */
  const NestedCallback: seq<Step> := [Nest("/sub-group", [Add(GET, "/test", Closure(5), [], [])], ["Demo"], [])]

  lemma NestedScript()
    ensures AttachedMiddlewares(NestedCallback) == [] && AttachedNames(NestedCallback) == []
    ensures Registered(NestedCallback, "/nested-group-array")
         == [Registration(GET, "/sub-group" + "/test", Closure(5), [], [], [GroupSpec("/sub-group", ["Demo"], [])])]
  {
    var body := [Add(GET, "/test", Closure(5), [], [])];
    var callback := NestedCallback;
    assert body[1..] == [] && callback[1..] == [];
    assert AttachedMiddlewares(body) == [] + AttachedMiddlewares([]);
    assert AttachedNames(body) == [] + AttachedNames([]);
    assert Registered(body, "/sub-group") == [Registration(GET, "/test", Closure(5), [], [], [])] + Registered([], "/sub-group");
    assert AttachedMiddlewares(body) + ["Demo"] == ["Demo"];
    assert AttachedNames(body) + [] == [];
    var u := Under(GroupSpec("/sub-group", ["Demo"], []), Registered(body, "/sub-group"));
    assert |u| == 1 && u[0] == Registration(GET, "/sub-group" + "/test", Closure(5), [], [], [GroupSpec("/sub-group", ["Demo"], [])]);
    assert Registered(callback, "/nested-group-array")
        == StepRegistered(callback[0], "/nested-group-array") + Registered([], "/nested-group-array");
  }

  /**
   * The global middleware, then a group whose callback opens a router group
   * "/sub-group" that registers one route and is given Demo once its own callback
   * returned: the route's URI is the outer prefix, the inner prefix and its own
   * URI, and its chain is the two groups.
   */
  method NestedGroupOpened() returns (app: Application, route: Route, outer: Group, inner: Group)
    ensures fresh(outer) && outer != inner
    ensures app.middlewares == ["Dummy", "Dummy"]
    ensures route.groups == [outer, inner] && route.middlewares == [] && route.middlewareGroups == []
    ensures outer.middlewares == [] && outer.middlewareGroups == []
    ensures inner.middlewares == ["Demo"] && inner.middlewareGroups == []
    ensures route.uri == "/nested-group-array/sub-group/test"
  {
    assert "/nested-group-array" + ("/sub-group" + "/test") == "/nested-group-array/sub-group/test";
    app := GlobalDummies();
    NestedScript();
    var callback := NestedCallback;
    ghost var reg := Registered(callback, "/nested-group-array")[0];
    outer := app.Group("/nested-group-array", callback);
    route := app.router.routes[0];
    assert [] + [outer] == [outer];
    assert RegisteredAs(route, reg, [outer]);
    inner := route.groups[1];
    assert route.groups == [outer, inner];
    assert SpecOf(route.groups[|[outer]| + 0]) == reg.inner[0];
    assert Prefixes([outer]) == "/nested-group-array" by {
      assert [outer][..0] == [];
    }
  }

  /** The nested-group test's setup: the outer group is given Sample once its callback returned. */
  method NestedGroupSetup() returns (app: Application, route: Route, outer: Group, inner: Group)
    ensures app.middlewares == ["Dummy", "Dummy"]
    ensures route.groups == [outer, inner] && route.middlewares == [] && route.middlewareGroups == []
    ensures outer.middlewares == ["Sample"] && outer.middlewareGroups == []
    ensures inner.middlewares == ["Demo"] && inner.middlewareGroups == []
    ensures route.uri == "/nested-group-array/sub-group/test"
  {
    app, route, outer, inner := NestedGroupOpened();
    outer.Middleware(Many(["Sample"]));
  }

  /** The nested group's route resolves to the global middleware, the outer group's, then the inner group's. */
  method NestedGroupMiddleware() returns (uri: string, resolved: seq<string>)
    ensures uri == "/nested-group-array/sub-group/test"
    ensures resolved == ["Dummy", "Dummy", "Sample", "Demo"]
  {
    var app, route, outer, inner := NestedGroupSetup();
    uri := route.uri;
    NestedDirect();
    Resolution.FlattenPair([], []);
    assert GroupMiddlewares([outer, inner]) == [["Sample"], ["Demo"]];
    assert GroupReferences([outer, inner]) == [[], []];
    assert app.References(route) == [];
    resolved := app.GetMiddlewares(route);
    assert Resolution.Expand([], Contents(app.middlewareGroups)) == [];
  }

  lemma NestedDirect()
    ensures Resolution.Direct(["Dummy", "Dummy"], [], [["Sample"], ["Demo"]]) == ["Dummy", "Dummy", "Sample", "Demo"]
  {
    Resolution.FlattenPair(["Sample"], ["Demo"]);
  }

  /** A callback opening group "/b" through its own group argument and registering GET "/c" in it. */
  const ArgumentCallback: seq<Step> := [NestUnder("/b", [Add(GET, "/c", Closure(6), [], [])], [], [])]

  lemma ArgumentScript()
    ensures Registered(ArgumentCallback, "/a")
         == [Registration(GET, ("/a" + "/b") + "/c", Closure(6), [], [], [GroupSpec("/a" + "/b", [], [])])]
  {
    var body := [Add(GET, "/c", Closure(6), [], [])];
    var callback := ArgumentCallback;
    assert body[1..] == [] && callback[1..] == [];
    assert AttachedMiddlewares(body) == [] + AttachedMiddlewares([]);
    assert AttachedNames(body) == [] + AttachedNames([]);
    assert Registered(body, "/a" + "/b") == [Registration(GET, "/c", Closure(6), [], [], [])] + Registered([], "/a" + "/b");
    assert AttachedMiddlewares(body) + [] == [] && AttachedNames(body) + [] == [];
    var u := Under(GroupSpec("/a" + "/b", [], []), Registered(body, "/a" + "/b"));
    assert |u| == 1 && u[0] == Registration(GET, ("/a" + "/b") + "/c", Closure(6), [], [], [GroupSpec("/a" + "/b", [], [])]);
    assert Registered(callback, "/a") == StepRegistered(callback[0], "/a") + Registered([], "/a");
  }

  /**
   * A nested group opened through the callback's own group argument, while that
   * group is still on the stack: the group passes its prefix joined with the new
   * one, and the router prefixes the stack again, so the outer prefix occurs twice.
   */
  method GroupArgumentRepeatsPrefix() returns (uri: string)
    ensures uri == "/a/a/b/c"
  {
    assert "/a" + (("/a" + "/b") + "/c") == "/a/a/b/c";
    var router := new Router();
    ArgumentScript();
    var callback := ArgumentCallback;
    ghost var reg := Registered(callback, "/a")[0];
    var g := router.Group("/a", callback);
    assert [] + [g] == [g];
    assert RegisteredAs(router.routes[0], reg, [g]);
    assert Prefixes([g]) == "/a" by {
      assert [g][..0] == [];
    }
    uri := router.routes[0].uri;
  }

  /** A callback attaching Auth to its group, registering GET "/users", then attaching Log and the reference "web". */
  const AttachingCallback: seq<Step> := [Attach(["Auth"], []), Add(GET, "/users", Closure(8), [], []), Attach(["Log"], ["web"])]

  lemma AttachingScript()
    ensures AttachedMiddlewares(AttachingCallback) == ["Auth", "Log"]
    ensures AttachedNames(AttachingCallback) == ["web"]
    ensures Registered(AttachingCallback, "/api") == [Registration(GET, "/users", Closure(8), [], [], [])]
  {
    var c := AttachingCallback;
    assert c[1..][1..][1..] == [];
    assert AttachedMiddlewares(c[1..][1..]) == ["Log"] + AttachedMiddlewares([]);
    assert AttachedMiddlewares(c[1..]) == [] + AttachedMiddlewares(c[1..][1..]);
    assert AttachedMiddlewares(c) == ["Auth"] + AttachedMiddlewares(c[1..]);
    assert AttachedNames(c[1..][1..]) == ["web"] + AttachedNames([]);
    assert AttachedNames(c[1..]) == [] + AttachedNames(c[1..][1..]);
    assert AttachedNames(c) == [] + AttachedNames(c[1..]);
    assert Registered(c[1..][1..], "/api") == [] + Registered([], "/api");
    assert Registered(c[1..], "/api") == [Registration(GET, "/users", Closure(8), [], [], [])] + Registered(c[1..][1..], "/api");
    assert Registered(c, "/api") == [] + Registered(c[1..], "/api");
  }

  /**
   * A callback that attaches middleware to its own group argument before and
   * after registering a route: the group ends up with both, in order, and the
   * route sits directly under it.
   */
  method CallbackAttachesToOwnGroup() returns (g: Group, route: Route)
    ensures g.middlewares == ["Auth", "Log"] && g.middlewareGroups == ["web"]
    ensures route.groups == [g] && route.uri == "/api" + "/users"
  {
    var router := new Router();
    AttachingScript();
    var callback := AttachingCallback;
    ghost var reg := Registered(callback, "/api")[0];
    g := router.Group("/api", callback);
    route := router.routes[0];
    assert [] + [g] == [g];
    assert RegisteredAs(route, reg, [g]);
    assert Prefixes([g]) == "/api" by {
      assert [g][..0] == [];
    }
  }

  /**
   * The route registered inside the group's callback still gets the group's
   * middleware, after the global ones.
   */
  method GroupMiddlewareAttachedAfterCallback() returns (uri: string, resolved: seq<string>)
    ensures uri == "/group-array/middleware-test"
    ensures resolved == ["Dummy", "Dummy", "Sample"]
  {
    assert Resolution.Direct(["Dummy", "Dummy"], [], [["Sample"]]) == ["Dummy", "Dummy", "Sample"] by {
      assert [["Sample"]][..0] == [];
    }
    Resolution.FlattenPair([], []);
    var app, route, g := GroupArraySetup();
    uri := route.uri;
    assert GroupMiddlewares([g]) == [["Sample"]];
    assert GroupReferences([g]) == [[]];
    assert app.References(route) == [];
    resolved := app.GetMiddlewares(route);
    assert Resolution.Expand([], Contents(app.middlewareGroups)) == [];
  }

  /** A route registered directly on the router that refers to the named group "web". */
  method ProfileSetup() returns (app: Application, route: Route)
    ensures fresh(app) && app.middlewares == ["Dummy"] && app.middlewareGroups == map[]
    ensures route.groups == [] && route.middlewares == [] && route.middlewareGroups == ["web"]
  {
    var router := new Router();
    app := new Application(router);
    app.Middleware(One("Dummy"));
    route := router.Register(GET, "/profile", Closure(7), []);
    route.MiddlewareGroup(One("web"));
  }

  /**
   * A route that refers to a named middleware group declared, and filled, only
   * afterwards: resolution reads the group's contents at dispatch time.
   */
  method LateBoundMiddlewareGroup() returns (resolved: seq<string>)
    ensures resolved == ["Dummy", "Auth", "Log"]
  {
    assert Resolution.Direct(["Dummy"], [], []) == ["Dummy"];
    assert Resolution.Pending(["web"], []) == ["web"];
    var app, route := ProfileSetup();
    var web := app.MiddlewareGroup("web");
    web.Middleware(["Auth"]);
    web.Middleware(["Log"]);
    ghost var contents := Contents(app.middlewareGroups);
    assert "web" in contents && contents["web"] == ["Auth", "Log"];
    assert Resolution.Expand(["web"], contents) == ["Auth", "Log"] by {
      assert ["web"][..0] == [];
    }
    assert GroupMiddlewares([]) == [] && GroupReferences([]) == [];
    resolved := app.GetMiddlewares(route);
  }

  /** Only GET is registered for the path; a POST gets the default 405, with no global middleware around it. */
  method DefaultMethodNotAllowed() returns (out: Result<Plan, Fatal>)
    ensures out == Success(Plan([], Respond(Response(405, map[], "405 Method Not Allowed"))))
  {
    var router := new Router();
    var app := new Application(router);
    var route := router.Register(GET, "/test-route", Closure(1), []);
    var matcher: Matcher := (m: Method, p: string) =>
      if p != "/test-route" then NotFound
      else if m == GET then Found(Closure(1), map[])
      else MethodNotAllowed([GET]);
    assert matcher(POST, "/test-route") == MethodNotAllowed([GET]);
    assert app.customMethodNotAllowedHandler == None && app.middlewares == [];
    out := app.DispatchRequest(Request(POST, "/test-route"), matcher);
  }

  /** A custom not-found handler's response replaces the default 404. */
  method CustomNotFound() returns (out: Result<Plan, Fatal>)
    ensures out == Success(Plan([], Respond(Response(404, map[], "Custom 404 Not Found"))))
  {
    var router := new Router();
    var app := new Application(router);
    app.SetNotFoundHandler((r: Request) => Response(404, map[], "Custom 404 Not Found"));
    var matcher: Matcher := (m: Method, p: string) => NotFound;
    assert app.customNotFoundHandler.Some? && app.middlewares == [];
    out := app.DispatchRequest(Request(GET, "/non-existent-route"), matcher);
  }

  /** OPTIONS on a path nothing is registered for gets the 404, not an Allow response. */
  method OptionsOnUnknownPath() returns (out: Result<Plan, Fatal>)
    ensures out == Success(Plan([], Respond(Response(404, map[], "404 Not Found"))))
  {
    var router := new Router();
    var app := new Application(router);
    var matcher: Matcher := (m: Method, p: string) => NotFound;
    NothingAllowed(matcher, "/non-existent");
    out := app.DispatchRequest(Request(OPTIONS, "/non-existent"), matcher);
  }

  /** The Allow lists the OPTIONS tests expect for a GET/POST/DELETE path and a POST-only path. */
  lemma OptionsAllowLists()
    ensures AllowList([GET, POST, DELETE]) == [GET, POST, DELETE, HEAD, OPTIONS]
    ensures AllowList([GET]) == [GET, HEAD, OPTIONS]
    ensures AllowList([POST]) == [POST, OPTIONS]
  {
    assert NoDuplicates([GET, POST, DELETE]);
    assert WithHead([GET, POST, DELETE]) == [GET, POST, DELETE, HEAD];
    assert WithHead([GET]) == [GET, HEAD];
    assert WithHead([POST]) == [POST];
  }

  /**
   * Global Dummy twice, then a route whose own middleware answers 403 without
   * passing the request on.
   */
  method UnauthenticatedSetup() returns (app: Application, route: Route)
    ensures fresh(app) && app.middlewares == ["Dummy", "Dummy"] && app.middlewareGroups == map[]
    ensures app.router.routes == [route]
    ensures route.httpMethod == GET && route.handler == Closure(3)
    ensures route.groups == [] && route.middlewares == ["Unauthenticated"] && route.middlewareGroups == []
  {
    app := GlobalDummies();
    route := app.router.Register(GET, "/unauthenticated", Closure(3), []);
    route.Middleware(One("Unauthenticated"));
  }

  /**
   * Dispatching GET /unauthenticated plans Dummy, Dummy, Unauthenticated around
   * the handler; the third middleware answers 403, so the handler never runs and
   * its answer is the response.
   */
  method UnauthenticatedShortCircuits(invoke: (Handler, map<string, string>) -> Response)
    returns (plan: Result<Plan, Fatal>, response: Response)
    ensures plan == Success(Plan(["Dummy", "Dummy", "Unauthenticated"], Invoke(Closure(3), map[])))
    ensures response == Response(403, map[], "authenticated")
  {
    var app, route := UnauthenticatedSetup();
    var matcher: Matcher := (m: Method, p: string) =>
      if m == GET && p == "/unauthenticated" then Found(Closure(3), map[]) else NotFound;
    assert FirstIndex(app.router.routes, RouteIs(GET, Closure(3))) == Some(0);
    assert GroupMiddlewares([]) == [] && GroupReferences([]) == [];
    assert app.References(route) == [];
    assert Resolution.Expand([], Contents(app.middlewareGroups)) == [];
    assert Resolution.Direct(["Dummy", "Dummy"], ["Unauthenticated"], []) == ["Dummy", "Dummy", "Unauthenticated"];
    assert app.NamesDeclared(route);
    assert app.Resolved(route) == ["Dummy", "Dummy", "Unauthenticated"];
    assert matcher(GET, "/unauthenticated") == Found(Closure(3), map[]);
    plan := app.DispatchRequest(Request(GET, "/unauthenticated"), matcher);
    var behave := (name: string) =>
      if name == "Unauthenticated" then ShortCircuit(Response(403, map[], "authenticated")) else PassOn;
    FirstShortCircuitWins(plan.value, behave, invoke, 2);
    response := Run(Links(plan.value), behave, invoke);
  }
}
