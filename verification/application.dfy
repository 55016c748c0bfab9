/**
 * The application: global middleware, named middleware groups, the custom 404
 * and 405 handlers, middleware resolution for a matched route, and the dispatch
 * decision over the matcher's outcome. Dispatch produces the plan the pipeline
 * runner executes: which middleware, in which order, around which terminal.
 */
module Koochik {
  import opened Wrappers
  import opened Http
  import opened Allow
  import opened Registry
  import opened Pipeline
  import Resolution
  import MiddlewareGroups

  /** The three default synthetic responses. */
  const NotFoundResponse: Response := Response(404, map[], "404 Not Found")
  const MethodNotAllowedResponse: Response := Response(405, map[], "405 Method Not Allowed")
  const InternalServerErrorResponse: Response := Response(500, map[], "500 Internal Server Error")

  /**
   * The automatic OPTIONS response: status 200, empty body, and one `Allow` header
   * whose value is the Allow list joined with ", ".
   */
  function OptionsResponse(allowed: seq<Method>): (r: Response)
    ensures r.status == 200 && r.body == ""
    ensures r.headers.Keys == {"Allow"} && r.headers["Allow"] == [Join(AllowList(allowed), ", ")]
  {
    EmptyResponse.(headers := map["Allow" := [Join(AllowList(allowed), ", ")]])
  }

  /** The own middleware of each group of a chain, outer to inner. */
  function GroupMiddlewares(chain: seq<Group>): (r: seq<seq<string>>)
    reads set g | g in chain
    ensures |r| == |chain| && forall i :: 0 <= i < |chain| ==> r[i] == chain[i].middlewares
  {
    if chain == [] then [] else GroupMiddlewares(chain[..|chain| - 1]) + [chain[|chain| - 1].middlewares]
  }

  /** The middleware-group references of each group of a chain, outer to inner. */
  function GroupReferences(chain: seq<Group>): (r: seq<seq<string>>)
    reads set g | g in chain
    ensures |r| == |chain| && forall i :: 0 <= i < |chain| ==> r[i] == chain[i].middlewareGroups
  {
    if chain == [] then [] else GroupReferences(chain[..|chain| - 1]) + [chain[|chain| - 1].middlewareGroups]
  }

  /** The current contents of every named middleware group. */
  function Contents(groups: map<string, MiddlewareGroups.MiddlewareGroup>): map<string, seq<string>>
    reads groups.Values
  {
    map n | n in groups :: groups[n].middlewares
  }

  /** Why a dispatch cannot complete: the PHP application raises these as fatal errors. */
  datatype Fatal = RouteLookupFailed | UndeclaredMiddlewareGroup

  class Application {
    const router: Router
    var middlewares: seq<string>
    var middlewareGroups: map<string, MiddlewareGroups.MiddlewareGroup>
    var customNotFoundHandler: Option<Request -> Response>
    var customMethodNotAllowedHandler: Option<Request -> Response>

    constructor (router: Router)
      ensures this.router == router
      ensures middlewares == [] && middlewareGroups == map[]
      ensures customNotFoundHandler == None && customMethodNotAllowedHandler == None
    {
      this.router := router;
      this.middlewares := [];
      this.middlewareGroups := map[];
      this.customNotFoundHandler := None;
      this.customMethodNotAllowedHandler := None;
    }

    method SetNotFoundHandler(handler: Request -> Response)
      modifies this
      ensures customNotFoundHandler == Some(handler)
      ensures customMethodNotAllowedHandler == old(customMethodNotAllowedHandler)
      ensures middlewares == old(middlewares) && middlewareGroups == old(middlewareGroups)
    {
      customNotFoundHandler := Some(handler);
    }

    method SetMethodNotAllowedHandler(handler: Request -> Response)
      modifies this
      ensures customMethodNotAllowedHandler == Some(handler)
      ensures customNotFoundHandler == old(customNotFoundHandler)
      ensures middlewares == old(middlewares) && middlewareGroups == old(middlewareGroups)
    {
      customMethodNotAllowedHandler := Some(handler);
    }

    /** Appends global middleware; earlier entries stay and duplicates are kept. */
    method Middleware(items: Items)
      modifies this
      ensures middlewares == old(middlewares) + items.AsList()
      ensures middlewareGroups == old(middlewareGroups)
      ensures customNotFoundHandler == old(customNotFoundHandler)
      ensures customMethodNotAllowedHandler == old(customMethodNotAllowedHandler)
    {
      middlewares := middlewares + items.AsList();
    }

    /** Declares `name` as a fresh, empty middleware group, replacing any earlier one. */
    method MiddlewareGroup(name: string) returns (g: MiddlewareGroups.MiddlewareGroup)
      modifies this
      ensures fresh(g) && g.middlewares == []
      ensures middlewareGroups == old(middlewareGroups)[name := g]
      ensures middlewares == old(middlewares)
      ensures customNotFoundHandler == old(customNotFoundHandler)
      ensures customMethodNotAllowedHandler == old(customMethodNotAllowedHandler)
    {
      g := new MiddlewareGroups.MiddlewareGroup([]);
      middlewareGroups := middlewareGroups[name := g];
    }

    /** Opens a route group on the router. */
    method Group(prefix: string, callback: seq<Step>) returns (g: Group)
      requires router.Valid()
      modifies router
      ensures router.Valid()
      ensures fresh(g) && g.prefix == prefix && g.router == router && g.depth == |old(router.currentGroupChain)|
      ensures g.middlewares == AttachedMiddlewares(callback) && g.middlewareGroups == AttachedNames(callback)
      ensures router.currentGroupChain == old(router.currentGroupChain)
      ensures old(router.routes) <= router.routes
      ensures |router.routes| == |old(router.routes)| + |Registered(callback, prefix)|
      ensures forall k :: |old(router.routes)| <= k < |router.routes| ==>
        && fresh(router.routes[k])
        && RegisteredAs(router.routes[k], Registered(callback, prefix)[k - |old(router.routes)|],
                        old(router.currentGroupChain) + [g])
    {
      g := router.Group(prefix, callback);
    }

    /** The group names a route refers to: its own, then each enclosing group's, outer to inner. */
    function References(route: Route): seq<string>
      reads route, set g | g in route.groups
    {
      Resolution.Pending(route.middlewareGroups, GroupReferences(route.groups))
    }

    /** Every middleware-group name the route refers to has been declared. */
    predicate NamesDeclared(route: Route)
      reads this, route, set g | g in route.groups
    {
      forall n :: n in References(route) ==> n in middlewareGroups
    }

    /** The middleware list resolution must produce for `route`, read from the current state. */
    function Resolved(route: Route): seq<string>
      reads this, route, (set g | g in route.groups), middlewareGroups.Values
      requires NamesDeclared(route)
    {
      Resolution.Resolve(middlewares, route.middlewares, route.middlewareGroups,
                         GroupMiddlewares(route.groups), GroupReferences(route.groups),
                         Contents(middlewareGroups))
    }

    /**
     * Collects the route's middleware: global, the route's own, each group's own
     * from outer to inner, and then the current contents of every referenced named
     * group, in reference order (the route's references, then each group's).
     */
    method GetMiddlewares(route: Route) returns (total: seq<string>)
      requires NamesDeclared(route)
      ensures total == Resolved(route)
    {
      var direct, pending := CollectDirect(route);
      total := AppendGroupContents(direct, pending);
    }

    /**
     * The first half of the collection: the global middleware, the route's own and
     * each group's own from outer to inner, together with every middleware-group
     * name referenced along the way, in reference order.
     */
    method CollectDirect(route: Route) returns (total: seq<string>, pending: seq<string>)
      ensures total == Resolution.Direct(middlewares, route.middlewares, GroupMiddlewares(route.groups))
      ensures pending == References(route)
    {
      total := middlewares + route.middlewares;
      pending := route.middlewareGroups;
      var chain := route.groups;
      ghost var own, refs := GroupMiddlewares(chain), GroupReferences(chain);
      for i := 0 to |chain|
        invariant total == middlewares + route.middlewares + Resolution.Flatten(own[..i])
        invariant pending == route.middlewareGroups + Resolution.Flatten(refs[..i])
      {
        assert own[..i + 1] == own[..i] + [chain[i].middlewares];
        assert refs[..i + 1] == refs[..i] + [chain[i].middlewareGroups];
        Resolution.FlattenSnoc(own[..i], chain[i].middlewares);
        Resolution.FlattenSnoc(refs[..i], chain[i].middlewareGroups);
        total := total + chain[i].middlewares;
        pending := pending + chain[i].middlewareGroups;
      }
      assert own[..|chain|] == own && refs[..|chain|] == refs;
    }

    /**
     * The second half of the collection: appends, in order, the current contents of
     * each named middleware group in `names`.
     */
    method AppendGroupContents(collected: seq<string>, names: seq<string>) returns (total: seq<string>)
      requires forall n :: n in names ==> n in middlewareGroups
      ensures total == collected + Resolution.Expand(names, Contents(middlewareGroups))
    {
      var contents := Contents(middlewareGroups);
      assert Resolution.Declared(names, contents);
      total := collected;
      for j := 0 to |names|
        invariant total == collected + Resolution.Expand(names[..j], contents)
      {
        var name := names[j];
        assert names[..j + 1] == names[..j] + [name];
        assert name in contents && contents[name] == middlewareGroups[name].middlewares;
        Resolution.ExpandSnoc(names[..j], name, contents);
        total := total + middlewareGroups[name].middlewares;
      }
      assert names[..|names|] == names;
    }

    /**
     * Probes GET, POST, PUT, DELETE, PATCH and HEAD in that order and keeps those
     * the matcher finds on `path`; HEAD is added when GET was found and HEAD was not.
     */
    method GetAllowedMethods(path: string, matcher: Matcher) returns (allowed: seq<Method>)
      ensures allowed == AllowedMethods(matcher, path)
      ensures forall m :: m in allowed <==>
        (m in Probes && matcher(m, path).Found?) || (m == HEAD && matcher(GET, path).Found?)
      ensures NoDuplicates(allowed)
    {
      allowed := [];
      for i := 0 to |Probes|
        invariant allowed == FoundAmong(Probes[..i], matcher, path)
      {
        assert Probes[..i + 1][..i] == Probes[..i];
        var info := matcher(Probes[i], path);
        if info.Found? {
          allowed := allowed + [Probes[i]];
        }
      }
      assert Probes[..|Probes|] == Probes;
      if GET in allowed && HEAD !in allowed {
        allowed := allowed + [HEAD];
      }
      allowed := Unique(allowed);
      AllowedMethodsMeaning(matcher, path);
    }

    /** The not-found answer: the custom handler's response if one is set, else the default 404. */
    function NotFoundOutcome(request: Request): (r: Response)
      reads this
      ensures customNotFoundHandler.None? ==> r == NotFoundResponse
      ensures customNotFoundHandler.Some? ==> r == customNotFoundHandler.value(request)
    {
      match customNotFoundHandler
      case Some(handler) => handler(request)
      case None => NotFoundResponse
    }

    /** The method-not-allowed answer: the custom handler's response if set, else the default 405. */
    function MethodNotAllowedOutcome(request: Request): (r: Response)
      reads this
      ensures customMethodNotAllowedHandler.None? ==> r == MethodNotAllowedResponse
      ensures customMethodNotAllowedHandler.Some? ==> r == customMethodNotAllowedHandler.value(request)
    {
      match customMethodNotAllowedHandler
      case Some(handler) => handler(request)
      case None => MethodNotAllowedResponse
    }

    /**
     * Dispatches a request on the matcher's outcome code. A found route runs its
     * resolved middleware around its handler; every other outcome produces a
     * synthetic response that runs through the global middleware only.
     */
    method DispatchRequest(request: Request, matcher: Matcher) returns (out: Result<Plan, Fatal>)
      ensures var info := matcher(request.httpMethod, request.path);
        info.NotFound? && (request.httpMethod != OPTIONS || AllowedMethods(matcher, request.path) == []) ==>
        out == Success(Plan(middlewares, Respond(NotFoundOutcome(request))))
      ensures var info := matcher(request.httpMethod, request.path);
        info.NotFound? && request.httpMethod == OPTIONS && AllowedMethods(matcher, request.path) != [] ==>
        out == Success(Plan(middlewares, Respond(OptionsResponse(AllowedMethods(matcher, request.path)))))
      ensures var info := matcher(request.httpMethod, request.path);
        info.MethodNotAllowed? && request.httpMethod == OPTIONS ==>
        out == Success(Plan(middlewares, Respond(OptionsResponse(info.allowed))))
      ensures var info := matcher(request.httpMethod, request.path);
        info.MethodNotAllowed? && request.httpMethod != OPTIONS ==>
        out == Success(Plan(middlewares, Respond(MethodNotAllowedOutcome(request))))
      ensures var info := matcher(request.httpMethod, request.path);
        info.Unrecognised? ==> out == Success(Plan(middlewares, Respond(InternalServerErrorResponse)))
      ensures var info := matcher(request.httpMethod, request.path);
        info.Found? ==>
        match FirstIndex(router.routes, RouteIs(request.httpMethod, info.handler))
        case None => out == Failure(RouteLookupFailed)
        case Some(k) =>
          if NamesDeclared(router.routes[k])
          then out == Success(Plan(Resolved(router.routes[k]), Invoke(info.handler, info.vars)))
          else out == Failure(UndeclaredMiddlewareGroup)
      ensures out.Success? && out.value.terminal.Respond? ==> out.value.middlewares == middlewares
    {
      var info := matcher(request.httpMethod, request.path);
      var code := info.Code();
      var early: Response;
      if code == NOT_FOUND {
        if request.httpMethod == OPTIONS {
          var allowed := GetAllowedMethods(request.path, matcher);
          if allowed != [] {
            early := OptionsResponse(allowed);
          } else {
            early := NotFoundOutcome(request);
          }
        } else {
          early := NotFoundOutcome(request);
        }
      } else if code == METHOD_NOT_ALLOWED {
        if request.httpMethod == OPTIONS {
          early := OptionsResponse(info.allowed);
        } else {
          early := MethodNotAllowedOutcome(request);
        }
      } else if code == FOUND {
        var found := router.GetRoute(request.httpMethod, info.handler);
        if found.Failure? {
          return Failure(RouteLookupFailed);
        }
        var route := found.value;
        if !NamesDeclared(route) {
          return Failure(UndeclaredMiddlewareGroup);
        }
        var resolved := GetMiddlewares(route);
        return Success(Plan(resolved, Invoke(info.handler, info.vars)));
      } else {
        early := InternalServerErrorResponse;
      }
      out := Success(Plan(middlewares, Respond(early)));
    }
  }
}
