/**
 * The route registry: routes, prefix groups and the router that records them.
 *
 * The router keeps an append-only list of routes and a stack of the groups whose
 * registration callbacks are running. Registering a route prefixes its URI with
 * the prefixes of every group on the stack and stamps it with the stack itself.
 * Routes hold the group objects, not copies, so middleware attached to a group
 * after its callback has returned still reaches the routes registered inside it.
 * Route, Group and Router share this module because a group holds its router and
 * the router creates groups.
 */
module Registry {
  import opened Http
  import opened Wrappers

  /** The `string | array` argument of the route and group builders. */
  datatype Items = One(name: string) | Many(names: seq<string>)
  {
    /** A single name is wrapped into a one-element list; a list is taken as it is. */
    function AsList(): seq<string>
    {
      match this
      case One(n) => [n]
      case Many(ns) => ns
    }
  }

  /** The prefixes of a group chain concatenated without separator, outer to inner. */
  function Prefixes(chain: seq<Group>): (r: string)
    ensures chain != [] ==> chain[0].prefix <= r
  {
    if chain == [] then "" else Prefixes(chain[..|chain| - 1]) + chain[|chain| - 1].prefix
  }

  lemma {:induction false} PrefixesAppend(a: seq<Group>, b: seq<Group>)
    ensures Prefixes(a + b) == Prefixes(a) + Prefixes(b)
    decreases |b|
  {
    if b == [] {
      assert a + b == a;
    } else {
      var b', last := b[..|b| - 1], b[|b| - 1];
      assert (a + b)[..|a + b| - 1] == a + b' && (a + b)[|a + b| - 1] == last;
      PrefixesAppend(a, b');
      calc {
        Prefixes(a + b);
        Prefixes(a + b') + last.prefix;
        Prefixes(a) + Prefixes(b') + last.prefix;
        Prefixes(a) + Prefixes(b);
      }
    }
  }

  /** A route whose chain extends `chain` has a URI that starts with the prefixes of `chain`. */
  lemma UriStartsWithChainPrefix(chain: seq<Group>, groups: seq<Group>, relative: string)
    requires chain <= groups
    ensures Prefixes(chain) <= Prefixes(groups) + relative
  {
    assert groups == chain + groups[|chain|..];
    PrefixesAppend(chain, groups[|chain|..]);
  }

  /** The index of the first element satisfying `p`, if any. */
  function FirstIndex<T>(s: seq<T>, p: T -> bool): (k: Option<nat>)
    ensures k.Some? ==> k.value < |s| && p(s[k.value]) && forall j :: 0 <= j < k.value ==> !p(s[j])
    ensures k.None? ==> forall j :: 0 <= j < |s| ==> !p(s[j])
  {
    if s == [] then None
    else if p(s[0]) then Some(0)
    else match FirstIndex(s[1..], p)
      case None => None
      case Some(k) => Some(k + 1)
  }

  class Route {
    const httpMethod: Method
    const uri: string
    const handler: Handler
    var middlewares: seq<string>
    var middlewareGroups: seq<string>
    var groups: seq<Group>
    var name: string

    /** Method, URI and handler are fixed here for good; name and group references start empty. */
    constructor (httpMethod: Method, uri: string, handler: Handler, middlewares: seq<string>)
      ensures this.httpMethod == httpMethod && this.uri == uri && this.handler == handler
      ensures this.middlewares == middlewares && middlewareGroups == [] && name == "" && groups == []
    {
      this.httpMethod := httpMethod;
      this.uri := uri;
      this.handler := handler;
      this.middlewares := middlewares;
      this.middlewareGroups := [];
      this.groups := [];
      this.name := "";
    }

    /** Appends middleware, keeping earlier entries and duplicates. */
    method Middleware(items: Items)
      modifies this
      ensures middlewares == old(middlewares) + items.AsList()
      ensures middlewareGroups == old(middlewareGroups) && groups == old(groups) && name == old(name)
    {
      middlewares := middlewares + items.AsList();
    }

    /** Appends named middleware-group references; the middleware list is untouched. */
    method MiddlewareGroup(items: Items)
      modifies this
      ensures middlewareGroups == old(middlewareGroups) + items.AsList()
      ensures middlewares == old(middlewares) && groups == old(groups) && name == old(name)
    {
      middlewareGroups := middlewareGroups + items.AsList();
    }

    /** Sets the name and nothing else. */
    method Name(n: string)
      modifies this
      ensures name == n
      ensures middlewares == old(middlewares) && middlewareGroups == old(middlewareGroups) && groups == old(groups)
    {
      name := n;
    }

    /** Replaces the group chain and nothing else. */
    method SetGroups(gs: seq<Group>)
      modifies this
      ensures groups == gs
      ensures middlewares == old(middlewares) && middlewareGroups == old(middlewareGroups) && name == old(name)
    {
      groups := gs;
    }
  }

  class Group {
    const prefix: string
    const router: Router
    /** The height of the router's group stack when the group was opened (proof bookkeeping). */
    ghost const depth: nat
    var middlewares: seq<string>
    var middlewareGroups: seq<string>

    /** The prefix is fixed at construction. */
    constructor (prefix: string, router: Router, ghost depth: nat)
      ensures this.prefix == prefix && this.router == router && this.depth == depth
      ensures middlewares == [] && middlewareGroups == []
    {
      this.prefix := prefix;
      this.router := router;
      this.depth := depth;
      this.middlewares := [];
      this.middlewareGroups := [];
    }

    /** Appends middleware; the group references are untouched. */
    method Middleware(items: Items)
      modifies this
      ensures middlewares == old(middlewares) + items.AsList()
      ensures middlewareGroups == old(middlewareGroups)
    {
      middlewares := middlewares + items.AsList();
    }

    /** Appends named middleware-group references; the middleware list is untouched. */
    method MiddlewareGroup(items: Items)
      modifies this
      ensures middlewareGroups == old(middlewareGroups) + items.AsList()
      ensures middlewares == old(middlewares)
    {
      middlewareGroups := middlewareGroups + items.AsList();
    }

    /**
     * A nested group opened through this group: the router runs `callback` under a
     * new group whose prefix is this group's prefix followed by `p`.
     */
    method Group(p: string, callback: seq<Step>) returns (g: Group)
      requires router.Valid()
      modifies router
      decreases Size(callback), 4
      ensures router.Valid()
      ensures fresh(g) && g.prefix == prefix + p && g.router == router && g.depth == |old(router.currentGroupChain)|
      ensures g.middlewares == AttachedMiddlewares(callback) && g.middlewareGroups == AttachedNames(callback)
      ensures router.currentGroupChain == old(router.currentGroupChain)
      ensures old(router.routes) <= router.routes
      ensures |router.routes| == |old(router.routes)| + |Registered(callback, prefix + p)|
      ensures forall k :: |old(router.routes)| <= k < |router.routes| ==>
        && fresh(router.routes[k])
        && RegisteredAs(router.routes[k], Registered(callback, prefix + p)[k - |old(router.routes)|],
                        old(router.currentGroupChain) + [g])
    {
      g := router.Group(prefix + p, callback);
    }
  }

  /**
   * One statement of a registration callback:
   *  - `Add`: register a route, then attach middleware and group references to it;
   *  - `Attach`: attach middleware and group references to the callback's own group;
   *  - `Nest`: open a nested group through the router, run `body` in it, then
   *    attach middleware and group references to the group it returns;
   *  - `NestUnder`: the same, with the group opened through the callback's own
   *    group argument.
   */
  datatype Step =
    | Add(httpMethod: Method, uri: string, handler: Handler, middlewares: seq<string>, groupNames: seq<string>)
    | Attach(middlewares: seq<string>, groupNames: seq<string>)
    | Nest(prefix: string, body: seq<Step>, middlewares: seq<string>, groupNames: seq<string>)
    | NestUnder(prefix: string, body: seq<Step>, middlewares: seq<string>, groupNames: seq<string>)

  /** The number of statements in a callback, nested bodies included (a termination measure). */
  function Size(steps: seq<Step>): nat
  {
    if steps == [] then 0 else StepSize(steps[0]) + Size(steps[1..])
  }

  function StepSize(s: Step): nat
  {
    match s
    case Nest(_, body, _, _) => 1 + Size(body)
    case NestUnder(_, body, _, _) => 1 + Size(body)
    case _ => 1
  }

  /** The middleware a callback attaches to its own group, in order. */
  function AttachedMiddlewares(steps: seq<Step>): seq<string>
  {
    if steps == [] then []
    else (if steps[0].Attach? then steps[0].middlewares else []) + AttachedMiddlewares(steps[1..])
  }

  /** The middleware-group references a callback attaches to its own group, in order. */
  function AttachedNames(steps: seq<Step>): seq<string>
  {
    if steps == [] then []
    else (if steps[0].Attach? then steps[0].groupNames else []) + AttachedNames(steps[1..])
  }

  /** A statement of a callback is no larger than the callback. */
  lemma {:induction false} StepWithin(steps: seq<Step>, j: nat)
    requires j < |steps|
    ensures StepSize(steps[j]) <= Size(steps)
    decreases j
  {
    if j > 0 {
      StepWithin(steps[1..], j - 1);
    }
  }

  /** The registrations of `steps + [s]` are those of `steps`, then those of `s`. */
  lemma {:induction false} RegisteredSnoc(steps: seq<Step>, s: Step, cur: string)
    ensures Registered(steps + [s], cur) == Registered(steps, cur) + StepRegistered(s, cur)
    decreases |steps|
  {
    if steps == [] {
      assert [s][1..] == [];
      assert Registered([s], cur) == StepRegistered(s, cur) + Registered([], cur);
    } else {
      var rest := steps[1..];
      assert (steps + [s])[1..] == rest + [s];
      RegisteredSnoc(rest, s, cur);
      calc {
        Registered(steps + [s], cur);
        StepRegistered(steps[0], cur) + Registered(rest + [s], cur);
        StepRegistered(steps[0], cur) + (Registered(rest, cur) + StepRegistered(s, cur));
        (StepRegistered(steps[0], cur) + Registered(rest, cur)) + StepRegistered(s, cur);
      }
    }
  }

  /** The middleware `steps + [s]` attaches to its group is what `steps` attaches, then what `s` attaches. */
  lemma {:induction false} AttachedMiddlewaresSnoc(steps: seq<Step>, s: Step)
    ensures AttachedMiddlewares(steps + [s]) == AttachedMiddlewares(steps) + AttachedMiddlewares([s])
    decreases |steps|
  {
    if steps == [] {
      assert steps + [s] == [s];
    } else {
      var head := if steps[0].Attach? then steps[0].middlewares else [];
      assert (steps + [s])[1..] == steps[1..] + [s];
      AttachedMiddlewaresSnoc(steps[1..], s);
      calc {
        AttachedMiddlewares(steps + [s]);
        head + AttachedMiddlewares(steps[1..] + [s]);
        head + (AttachedMiddlewares(steps[1..]) + AttachedMiddlewares([s]));
        (head + AttachedMiddlewares(steps[1..])) + AttachedMiddlewares([s]);
      }
    }
  }

  /** The references `steps + [s]` attaches to its group are those of `steps`, then those of `s`. */
  lemma {:induction false} AttachedNamesSnoc(steps: seq<Step>, s: Step)
    ensures AttachedNames(steps + [s]) == AttachedNames(steps) + AttachedNames([s])
    decreases |steps|
  {
    if steps == [] {
      assert steps + [s] == [s];
    } else {
      var head := if steps[0].Attach? then steps[0].groupNames else [];
      assert (steps + [s])[1..] == steps[1..] + [s];
      AttachedNamesSnoc(steps[1..], s);
      calc {
        AttachedNames(steps + [s]);
        head + AttachedNames(steps[1..] + [s]);
        head + (AttachedNames(steps[1..]) + AttachedNames([s]));
        (head + AttachedNames(steps[1..])) + AttachedNames([s]);
      }
    }
  }

  /** A group as the routes see it once its callback has finished. */
  datatype GroupSpec = GroupSpec(prefix: string, middlewares: seq<string>, groupNames: seq<string>)

  function SpecOf(g: Group): GroupSpec
    reads g
  {
    GroupSpec(g.prefix, g.middlewares, g.middlewareGroups)
  }

  /**
   * What one `Add` statement registers. As a result of `Registered`, `inner` lists
   * the groups opened inside the callback around the route, outer to inner, and
   * `uri` is the route's URI relative to the stack the callback runs under: the
   * prefixes of `inner` followed by the `Add`'s URI.
   */
  datatype Registration = Registration(httpMethod: Method, uri: string, handler: Handler,
                                       middlewares: seq<string>, groupNames: seq<string>,
                                       inner: seq<GroupSpec>)

  /** The registrations `regs` seen from outside the group `spec` that encloses them. */
  function Under(spec: GroupSpec, regs: seq<Registration>): (r: seq<Registration>)
    ensures |r| == |regs|
    ensures forall i :: 0 <= i < |regs| ==>
      r[i] == regs[i].(uri := spec.prefix + regs[i].uri, inner := [spec] + regs[i].inner)
  {
    if regs == [] then []
    else
      var last := regs[|regs| - 1];
      Under(spec, regs[..|regs| - 1]) + [last.(uri := spec.prefix + last.uri, inner := [spec] + last.inner)]
  }

  /**
   * The registrations a callback makes, in order, nested bodies included, for a
   * callback whose group argument has prefix `cur`. A group opened through the
   * router gets the prefix it is given; one opened through the group argument gets
   * `cur` followed by the prefix it is given. Either ends up with what its body
   * attached to it, followed by what the statement attaches after it returned.
   */
  function Registered(steps: seq<Step>, cur: string): seq<Registration>
  {
    if steps == [] then [] else StepRegistered(steps[0], cur) + Registered(steps[1..], cur)
  }

  function StepRegistered(s: Step, cur: string): seq<Registration>
  {
    match s
    case Add(m, u, h, mws, names) => [Registration(m, u, h, mws, names, [])]
    case Attach(_, _) => []
    case Nest(p, body, mws, names) =>
      Under(GroupSpec(p, AttachedMiddlewares(body) + mws, AttachedNames(body) + names), Registered(body, p))
    case NestUnder(p, body, mws, names) =>
      Under(GroupSpec(cur + p, AttachedMiddlewares(body) + mws, AttachedNames(body) + names),
            Registered(body, cur + p))
  }

  /** Route lookup keys: method and handler, or handler alone. */
  function RouteIs(m: Method, h: Handler): Route -> bool
  {
    (r: Route) => r.httpMethod == m && r.handler == h
  }

  function HandlerIs(h: Handler): Route -> bool
  {
    (r: Route) => r.handler == h
  }

  /**
   * Route `r` is what registration `reg` produced under the stack `chain`: its URI
   * is the prefixes of `chain` followed by the registered relative URI, and its
   * group chain is `chain` followed by groups that look as `reg.inner` says.
   */
  ghost predicate RegisteredAs(r: Route, reg: Registration, chain: seq<Group>)
    reads r, set i | |chain| <= i < |r.groups| :: r.groups[i]
  {
    && r.httpMethod == reg.httpMethod && r.handler == reg.handler
    && r.middlewares == reg.middlewares && r.middlewareGroups == reg.groupNames && r.name == ""
    && r.uri == Prefixes(chain) + reg.uri
    && |r.groups| == |chain| + |reg.inner| && r.groups[..|chain|] == chain
    && forall i :: 0 <= i < |reg.inner| ==>
         SpecOf(r.groups[|chain| + i]) == reg.inner[i] && r.groups[|chain| + i].depth == |chain| + i
  }

  /** A route registered under `chain + [g]` holds the group object `g` itself right after `chain`. */
  lemma SharedNestedGroup(r: Route, reg: Registration, chain: seq<Group>, g: Group)
    requires RegisteredAs(r, reg, chain + [g])
    ensures |chain| < |r.groups| && r.groups[|chain|] == g
  {
    assert r.groups[..|chain| + 1][|chain|] == (chain + [g])[|chain|];
  }

  /**
   * A route registered under `chain + [g]` is, seen from `chain`, registered with
   * `g` as its outermost inner group and `g`'s prefix in front of its relative URI.
   */
  lemma LiftRegistered(r: Route, reg: Registration, chain: seq<Group>, g: Group)
    requires RegisteredAs(r, reg, chain + [g]) && g.depth == |chain|
    ensures RegisteredAs(r, reg.(uri := g.prefix + reg.uri, inner := [SpecOf(g)] + reg.inner), chain)
  {
    assert (chain + [g])[..|chain|] == chain;
    assert r.groups[..|chain|] == r.groups[..|chain| + 1][..|chain|];
    var inner := [SpecOf(g)] + reg.inner;
    forall i | 0 <= i < |inner|
      ensures SpecOf(r.groups[|chain| + i]) == inner[i] && r.groups[|chain| + i].depth == |chain| + i
    {
      if i > 0 {
        assert r.groups[|chain| + i] == r.groups[|chain + [g]| + (i - 1)];
      }
    }
  }

  /** A group opened below the stack's height is none of a registered route's inner groups. */
  lemma BelowInner(r: Route, reg: Registration, chain: seq<Group>, g: Group)
    requires RegisteredAs(r, reg, chain) && g.depth < |chain|
    ensures forall i :: |chain| <= i < |r.groups| ==> r.groups[i] != g
  {
    forall i | |chain| <= i < |r.groups|
      ensures r.groups[i] != g
    {
      var n := i - |chain|;
      assert 0 <= n < |reg.inner| && SpecOf(r.groups[|chain| + n]) == reg.inner[n];
    }
  }

  datatype LookupError = RouteNotFound

  class Router {
    var routes: seq<Route>
    var currentGroupChain: seq<Group>

    /** Every group on the stack was opened through this router. */
    ghost predicate Valid()
      reads this
    {
      forall g :: g in currentGroupChain ==> g.router == this
    }

    constructor ()
      ensures Valid() && routes == [] && currentGroupChain == []
    {
      routes := [];
      currentGroupChain := [];
    }

    /** The prefix of the groups on the stack, outer to inner. */
    function CurrentGroupPrefix(): (p: string)
      reads this
      ensures currentGroupChain == [] ==> p == ""
      ensures currentGroupChain != [] ==> currentGroupChain[0].prefix <= p
    {
      Prefixes(currentGroupChain)
    }

    /**
     * Registers one route: its URI is the current group prefix followed by `uri`,
     * its group chain is the current stack, and it is appended after every route
     * registered before it.
     */
    method Register(httpMethod: Method, uri: string, handler: Handler, middlewares: seq<string>) returns (r: Route)
      modifies this
      ensures fresh(r)
      ensures r.httpMethod == httpMethod && r.uri == Prefixes(currentGroupChain) + uri && r.handler == handler
      ensures r.groups == currentGroupChain
      ensures r.middlewares == middlewares && r.middlewareGroups == [] && r.name == ""
      ensures routes == old(routes) + [r]
      ensures currentGroupChain == old(currentGroupChain)
    {
      r := new Route(httpMethod, CurrentGroupPrefix() + uri, handler, middlewares);
      r.SetGroups(currentGroupChain);
      routes := routes + [r];
    }

    /**
     * Opens a group: pushes a new group with `prefix`, runs `callback` with the
     * group as its argument and on top of the stack, and pops it again. The group
     * ends up with what the callback attached to it. Every route the callback
     * registers has the old stack, then the new group, then the groups opened
     * inside the callback as its chain.
     */
    method Group(prefix: string, callback: seq<Step>) returns (g: Group)
      requires Valid()
      modifies this
      decreases Size(callback), 3
      ensures Valid()
      ensures fresh(g) && g.prefix == prefix && g.router == this && g.depth == |old(currentGroupChain)|
      ensures g.middlewares == AttachedMiddlewares(callback) && g.middlewareGroups == AttachedNames(callback)
      ensures currentGroupChain == old(currentGroupChain)
      ensures old(routes) <= routes
      ensures |routes| == |old(routes)| + |Registered(callback, prefix)|
      ensures forall k :: |old(routes)| <= k < |routes| ==>
        && fresh(routes[k])
        && RegisteredAs(routes[k], Registered(callback, prefix)[k - |old(routes)|], old(currentGroupChain) + [g])
    {
      g := new Group(prefix, this, |currentGroupChain|);
      currentGroupChain := currentGroupChain + [g];
      RunCallback(callback, g);
      currentGroupChain := currentGroupChain[..|currentGroupChain| - 1];
    }

    /**
     * Runs a registration callback whose group argument is `current`. The stack
     * is the same afterwards, `current` has the callback's attachments appended,
     * earlier routes keep their positions, and the new routes are the callback's
     * registrations under the stack.
     */
    method RunCallback(callback: seq<Step>, current: Group)
      requires Valid() && current.router == this && current.depth < |currentGroupChain|
      modifies this, current
      decreases Size(callback), 2
      ensures Valid()
      ensures currentGroupChain == old(currentGroupChain)
      ensures current.middlewares == old(current.middlewares) + AttachedMiddlewares(callback)
      ensures current.middlewareGroups == old(current.middlewareGroups) + AttachedNames(callback)
      ensures old(routes) <= routes
      ensures |routes| == |old(routes)| + |Registered(callback, current.prefix)|
      ensures forall k :: |old(routes)| <= k < |routes| ==>
        && fresh(routes[k])
        && RegisteredAs(routes[k], Registered(callback, current.prefix)[k - |old(routes)|], currentGroupChain)
    {
      ghost var regs: seq<Registration> := [];
      for j := 0 to |callback|
        invariant Valid()
        invariant currentGroupChain == old(currentGroupChain)
        invariant current.middlewares == old(current.middlewares) + AttachedMiddlewares(callback[..j])
        invariant current.middlewareGroups == old(current.middlewareGroups) + AttachedNames(callback[..j])
        invariant regs == Registered(callback[..j], current.prefix)
        invariant old(routes) <= routes && |routes| == |old(routes)| + |regs|
        invariant forall k :: |old(routes)| <= k < |routes| ==>
          fresh(routes[k]) && RegisteredAs(routes[k], regs[k - |old(routes)|], currentGroupChain)
      {
        StepWithin(callback, j);
        RegisteredSnoc(callback[..j], callback[j], current.prefix);
        AttachedMiddlewaresSnoc(callback[..j], callback[j]);
        AttachedNamesSnoc(callback[..j], callback[j]);
        assert callback[..j + 1] == callback[..j] + [callback[j]];
        assert [callback[j]][1..] == [];
        if callback[j].Attach? {
          forall k | |old(routes)| <= k < |routes|
            ensures forall i :: |currentGroupChain| <= i < |routes[k].groups| ==> routes[k].groups[i] != current
          {
            BelowInner(routes[k], regs[k - |old(routes)|], currentGroupChain, current);
          }
          AttachStep(callback[j], current);
          assert StepRegistered(callback[j], current.prefix) == [];
          assert regs + StepRegistered(callback[j], current.prefix) == regs;
          regs := regs + StepRegistered(callback[j], current.prefix);
        } else {
          ghost var before := routes;
          ghost var added := StepRegistered(callback[j], current.prefix);
          RunStep(callback[j], current);
          forall k | |old(routes)| <= k < |routes|
            ensures fresh(routes[k]) && RegisteredAs(routes[k], (regs + added)[k - |old(routes)|], currentGroupChain)
          {
            if k < |before| {
              assert routes[k] == before[k];
            }
          }
          regs := regs + added;
        }
      }
      assert callback[..|callback|] == callback;
    }

    /**
     * Runs one statement of a registration callback whose group argument is
     * `current`, other than an attachment to `current` itself.
     */
    method RunStep(step: Step, current: Group)
      requires Valid() && current.router == this && !step.Attach?
      modifies this
      decreases StepSize(step), 1
      ensures Valid()
      ensures currentGroupChain == old(currentGroupChain)
      ensures old(routes) <= routes
      ensures |routes| == |old(routes)| + |StepRegistered(step, current.prefix)|
      ensures forall k :: |old(routes)| <= k < |routes| ==>
        && fresh(routes[k])
        && RegisteredAs(routes[k], StepRegistered(step, current.prefix)[k - |old(routes)|], currentGroupChain)
    {
      match step {
        case Add(_, _, _, _, _) => AddStep(step, current);
        case Nest(_, _, _, _) => var _ := NestStep(step, current);
        case NestUnder(_, _, _, _) => var _ := NestUnderStep(step, current);
      }
    }

    /** Registers a route and attaches its middleware and group references. */
    method AddStep(step: Step, current: Group)
      requires Valid() && current.router == this && step.Add?
      modifies this
      decreases StepSize(step), 0
      ensures Valid()
      ensures currentGroupChain == old(currentGroupChain)
      ensures old(routes) <= routes
      ensures |routes| == |old(routes)| + |StepRegistered(step, current.prefix)|
      ensures forall k :: |old(routes)| <= k < |routes| ==>
        && fresh(routes[k])
        && RegisteredAs(routes[k], StepRegistered(step, current.prefix)[k - |old(routes)|], currentGroupChain)
    {
      var r := Register(step.httpMethod, step.uri, step.handler, []);
      r.Middleware(Many(step.middlewares));
      r.MiddlewareGroup(Many(step.groupNames));
    }

    /** Attaches middleware and group references to the callback's own group. */
    method AttachStep(step: Step, current: Group)
      requires step.Attach?
      modifies current
      ensures routes == old(routes)
      ensures current.middlewares == old(current.middlewares) + step.middlewares
      ensures current.middlewareGroups == old(current.middlewareGroups) + step.groupNames
    {
      current.Middleware(Many(step.middlewares));
      current.MiddlewareGroup(Many(step.groupNames));
    }

    /** Opens a nested group through the router and attaches middleware and references to it. */
    method NestStep(step: Step, current: Group) returns (g: Group)
      requires Valid() && current.router == this && step.Nest?
      modifies this
      decreases StepSize(step), 0
      ensures fresh(g) && g.depth == |currentGroupChain|
      ensures Valid()
      ensures currentGroupChain == old(currentGroupChain)
      ensures old(routes) <= routes
      ensures |routes| == |old(routes)| + |StepRegistered(step, current.prefix)|
      ensures forall k :: |old(routes)| <= k < |routes| ==>
        && fresh(routes[k])
        && RegisteredAs(routes[k], StepRegistered(step, current.prefix)[k - |old(routes)|], currentGroupChain)
        && |currentGroupChain| < |routes[k].groups| && routes[k].groups[|currentGroupChain|] == g
    {
      ghost var before := routes;
      g := Group(step.prefix, step.body);
      assert forall k :: |before| <= k < |routes| ==> fresh(routes[k]);
      AttachToNested(step, current, g, |before|);
    }

    /** Opens a nested group through the callback's own group argument and attaches to it. */
    method NestUnderStep(step: Step, current: Group) returns (g: Group)
      requires Valid() && current.router == this && step.NestUnder?
      modifies this
      decreases StepSize(step), 0
      ensures fresh(g) && g.depth == |currentGroupChain|
      ensures Valid()
      ensures currentGroupChain == old(currentGroupChain)
      ensures old(routes) <= routes
      ensures |routes| == |old(routes)| + |StepRegistered(step, current.prefix)|
      ensures forall k :: |old(routes)| <= k < |routes| ==>
        && fresh(routes[k])
        && RegisteredAs(routes[k], StepRegistered(step, current.prefix)[k - |old(routes)|], currentGroupChain)
        && |currentGroupChain| < |routes[k].groups| && routes[k].groups[|currentGroupChain|] == g
    {
      ghost var before := routes;
      g := current.Group(step.prefix, step.body);
      assert forall k :: |before| <= k < |routes| ==> fresh(routes[k]);
      AttachToNested(step, current, g, |before|);
    }

    /**
     * Finishes a nested-group statement `step` of a callback whose group argument
     * is `current`: attaches the statement's middleware and references to the group
     * `g` it opened, once that group's callback returned. The routes registered in
     * that callback, from position `from` on, were registered under the stack
     * followed by `g`; seen from the stack, they are the statement's registrations.
     */
    method AttachToNested(step: Step, current: Group, g: Group, ghost from: nat)
      requires step.Nest? || step.NestUnder?
      requires g.prefix == (if step.Nest? then step.prefix else current.prefix + step.prefix)
      requires g.middlewares == AttachedMiddlewares(step.body) && g.middlewareGroups == AttachedNames(step.body)
      requires g.depth == |currentGroupChain|
      requires from <= |routes| && |routes| == from + |Registered(step.body, g.prefix)|
      requires forall k :: from <= k < |routes| ==>
        RegisteredAs(routes[k], Registered(step.body, g.prefix)[k - from], currentGroupChain + [g])
      modifies g
      ensures routes == old(routes)
      ensures |routes| == from + |StepRegistered(step, current.prefix)|
      ensures forall k :: from <= k < |routes| ==>
        && RegisteredAs(routes[k], StepRegistered(step, current.prefix)[k - from], currentGroupChain)
        && |currentGroupChain| < |routes[k].groups| && routes[k].groups[|currentGroupChain|] == g
    {
      ghost var regs := Registered(step.body, g.prefix);
      g.Middleware(Many(step.middlewares));
      g.MiddlewareGroup(Many(step.groupNames));
      assert StepRegistered(step, current.prefix) == Under(SpecOf(g), regs);
      forall k | from <= k < |routes|
        ensures && RegisteredAs(routes[k], Under(SpecOf(g), regs)[k - from], currentGroupChain)
                && |currentGroupChain| < |routes[k].groups| && routes[k].groups[|currentGroupChain|] == g
      {
        SharedNestedGroup(routes[k], regs[k - from], currentGroupChain, g);
        LiftRegistered(routes[k], regs[k - from], currentGroupChain, g);
      }
    }

    /**
     * The first registered route with method `m` and handler `h`; a lookup that
     * finds none fails.
     */
    method GetRoute(m: Method, h: Handler) returns (res: Result<Route, LookupError>)
      ensures res == match FirstIndex(routes, RouteIs(m, h))
                     case Some(k) => Success(routes[k])
                     case None => Failure(RouteNotFound)
    {
      var i := 0;
      while i < |routes|
        invariant 0 <= i <= |routes|
        invariant forall j :: 0 <= j < i ==> !RouteIs(m, h)(routes[j])
      {
        if routes[i].httpMethod == m && routes[i].handler == h {
          return Success(routes[i]);
        }
        i := i + 1;
      }
      return Failure(RouteNotFound);
    }

    /** The middleware of the first route whose handler is `h`, or nothing when there is none. */
    method GetMiddlewaresForHandler(h: Handler) returns (mws: seq<string>)
      ensures mws == match FirstIndex(routes, HandlerIs(h))
                     case Some(k) => routes[k].middlewares
                     case None => []
    {
      var i := 0;
      while i < |routes|
        invariant 0 <= i <= |routes|
        invariant forall j :: 0 <= j < i ==> !HandlerIs(h)(routes[j])
      {
        if routes[i].handler == h {
          return routes[i].middlewares;
        }
        i := i + 1;
      }
      return [];
    }
  }
}
