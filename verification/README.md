# Koochik routing and middleware core, in Dafny

Koochik is a small PHP micro-framework. Its core is a route registry, prefix groups,
named middleware groups and a dispatcher. This project models that core and proves
what it does.

- **Route registry (`Registry.Router`).** The router keeps an append-only list of
  routes and a stack of the groups whose registration callbacks are running.
  Registering a route works in three steps:
  - its URI gets the concatenated prefixes of the stack in front;
  - it is stamped with the stack itself;
  - it is appended to the list.

  Opening a group pushes a new `Group`, runs the callback and pops the group again.
  Lookups scan the list front to back and return the first match.
- **Builders (`Registry.Route`, `Registry.Group`, `MiddlewareGroups.MiddlewareGroup`).**
  These are mutable objects whose builder methods append to ordered lists.
  - A single name is wrapped into a one-element list, except in `MiddlewareGroup`.
  - Duplicates are kept.
  - Routes hold the group objects themselves, so middleware attached to a group
    after its callback returned still reaches the routes registered inside it.
- **Middleware resolution (`Koochik.Application.GetMiddlewares`, specified by
  `Resolution.Resolve`).** The resolved list is built in this order:
  1. the global middleware;
  2. the route's own middleware;
  3. each enclosing group's own middleware, outer to inner;
  4. last, the current contents of every referenced named middleware group: the
     route's references first, then each group's.

  Named groups are read when the route is resolved, so entries added later still
  count.
- **Dispatch (`Koochik.Application.DispatchRequest`).** Dispatch is a case split over
  the path matcher's outcome (NOT_FOUND = 0, FOUND = 1, METHOD_NOT_ALLOWED = 2,
  anything else):
  - an automatic OPTIONS response carries an `Allow` header: the allowed methods,
    HEAD when GET is allowed, then OPTIONS, with duplicates removed;
  - otherwise the answer is the default 404/405/500 response, or the response of a
    custom handler set by the caller;
  - every synthetic response runs through the global middleware only;
  - a found route runs its resolved middleware around its handler.

  Dispatch returns a `Pipeline.Plan`: the middleware names, then the terminal
  handler. `Pipeline.Run` states the onion rule for abstract middleware that
  either passes the request on or answers it itself.

A group's registration callback is arbitrary PHP code. It is modelled as a script
(`Registry.Step`) that the router runs. The script can:
- register a route and attach middleware and group references to it;
- attach middleware and group references to the callback's own group argument;
- open a nested group through the router, and attach to it once its callback returned;
- open a nested group through the callback's own group argument, likewise.

`Registry.Registered` says which routes a script registers, with which URIs, and
which inner groups (prefix, middleware and references) each of them sits under.
`Registry.AttachedMiddlewares` and `Registry.AttachedNames` say what a script
attaches to its own group.
The path matcher is a total function parameter (`Http.Matcher`). Middleware are
opaque names.

## Model

| member | source | states |
|---|---|---|
| Registry.Route.constructor | src/koochik/Route.php:16-23 | method, URI, handler and middleware are the given ones; name is empty; no group references |
| Registry.Route.Middleware | src/koochik/Route.php:38-44 | the middleware list becomes the old list followed by the argument (a single name wrapped); references, groups and name unchanged |
| Registry.Route.MiddlewareGroup | src/koochik/Route.php:61-67 | the reference list grows by the argument (a single name wrapped); middleware, groups and name unchanged |
| Registry.Route.Name | src/koochik/Route.php:70-77 | sets the name and nothing else |
| Registry.Route.SetGroups | src/koochik/Route.php:52-58 | the group chain becomes the argument; nothing else changes |
| Registry.Group.constructor | src/Group.php:12-16 | prefix and router are fixed as given (both are constants); both lists start empty; the ghost depth records the stack height when the group was opened |
| Registry.Group.Middleware | src/Group.php:19-25 | appends the argument (a single name wrapped) to the group's middleware; references unchanged |
| Registry.Group.MiddlewareGroup | src/Group.php:34-40 | appends the argument (a single name wrapped) to the group's references; middleware unchanged |
| Registry.Group.Group | src/Group.php:59-63 | opens a router group with prefix `this.prefix + p` at the current stack height: afterwards the new group holds exactly the middleware and references the script attached to it, in order; the stack is restored; earlier routes stay; each new route is the script's registration under the old stack plus the new group, with exactly the inner groups (prefix, middleware, references) its registration names |
| MiddlewareGroups.MiddlewareGroup.constructor | src/koochik/MiddlewareGroup.php:8-12 | the given list is the initial contents |
| MiddlewareGroups.MiddlewareGroup.Middleware | src/koochik/MiddlewareGroup.php:14-18 | the contents become the old contents followed by the argument list, duplicates kept |
| Registry.PrefixesAppend | src/koochik/Router.php:42-44 | the prefix of a concatenated chain is the concatenation of the two chains' prefixes |
| Registry.Prefixes | src/koochik/Router.php:42-44 | the prefixes of a chain, concatenated outer to inner without separator, start with the outermost group's prefix |
| Registry.Router.CurrentGroupPrefix | src/koochik/Router.php:42-44 | the empty string when no group is open; otherwise it starts with the outermost open group's prefix |
| Registry.UriStartsWithChainPrefix | src/koochik/Router.php:20-23 | a URI built under a chain that extends `chain` starts with the prefixes of `chain` |
| Registry.LiftRegistered | src/koochik/Router.php:34-43 | a route registered under the stack plus group `g` is, seen from the stack, registered with `g`'s prefix in front of its URI and `g`'s prefix, middleware and references as its first inner group |
| Registry.SharedNestedGroup | src/koochik/Router.php:23 | a route registered under the stack plus group `g` holds `g` itself, not a copy, right after the stack |
| Registry.BelowInner | src/koochik/Router.php:34-40 | the inner groups of a route registered under a stack were opened above it, so none of them is a group already on the stack |
| Registry.RegisteredSnoc | src/koochik/Router.php:37 | a script followed by one more statement registers the script's routes, then the statement's |
| Registry.AttachedMiddlewaresSnoc | src/Group.php:19-25 | a script followed by one more statement attaches the script's middleware to its group, then the statement's |
| Registry.AttachedNamesSnoc | src/Group.php:34-40 | the same for group references |
| Registry.FirstIndex | src/koochik/Router.php:59-64 | returns the first index whose element satisfies the key, or none when no element does |
| Registry.Router.constructor | src/koochik/Router.php:13-18 | no routes and an empty group stack |
| Registry.Router.Register | src/koochik/Router.php:20-27 | exactly one fresh route is appended: its URI is the stack's prefixes followed by `uri`, its chain is the stack, and earlier routes and the stack are unchanged |
| Registry.Router.Group | src/koochik/Router.php:34-40 | after the callback the stack is what it was; the new group holds exactly what the script attached to it; earlier routes keep their places; the new routes are, in order, the script's registrations, each with URI = old stack prefixes + registered relative URI, and chain = old stack + the new group + exactly the inner groups its registration names |
| Registry.Router.RunCallback | src/koochik/Router.php:37 | running a script with group argument `current` appends exactly its registrations, in order, with URIs prefixed by the stack; `current`'s middleware and references grow by exactly what the script attached; the stack is restored |
| Registry.Router.RunStep | src/koochik/Router.php:37 | the same for one statement of a script other than an attachment to `current` |
| Registry.Router.AttachStep | src/Group.php:19-40 | an attachment statement appends its middleware and references to the callback's own group; the routes are unchanged |
| Registry.Router.AddStep | src/koochik/Router.php:20-27 | a registration step appends one route carrying the step's method, URI, handler, middleware and references |
| Registry.Router.NestStep | src/koochik/Router.php:34-40 | a nested router group registers its body's routes with the nested prefix in front, under an inner group carrying that prefix and the middleware and references attached to it; it returns that group, which is fresh and is the very object every one of those routes holds right after the stack |
| Registry.Router.NestUnderStep | src/Group.php:59-63 | a group opened through the callback's group registers its body's routes with that group's prefix and the new prefix in front, under an inner group carrying them; it returns that group, fresh and shared by every one of those routes right after the stack |
| Registry.Router.AttachToNested | src/Group.php:19-40 | attaching to a nested group after its callback returned turns the body's registrations under the stack plus that group into the statement's registrations under the stack; every one of those routes still holds that group object right after the stack, and the route list is unchanged |
| Registry.Router.GetRoute | src/koochik/Router.php:59-67 | returns the first route with the given method and handler, or the not-found error when there is none |
| Registry.Router.GetMiddlewaresForHandler | src/koochik/Router.php:50-57 | returns the middleware of the first route with the given handler, or the empty list when there is none |
| Allow.Unique | src/Application.php:217 | no duplicates, same members as the input, and the input itself when it already had no duplicates |
| Allow.IndexOf | src/Application.php:217 | the position of the first occurrence of an element |
| Allow.UniqueKeepsFirstOccurrenceOrder | src/Application.php:217 | the elements of the result appear in the order of their first occurrences in the input |
| Allow.WithHead | src/Application.php:213-215 | adds exactly HEAD, and only when GET is present; keeps "no duplicates" |
| Allow.AllowList | src/Application.php:151-160 | no duplicates; contains exactly the allowed methods, OPTIONS, and HEAD when GET is allowed; when the input has no duplicates and no OPTIONS, it is the input, then HEAD if added, then OPTIONS |
| Allow.FoundAmong | src/Application.php:205-210 | holds exactly the probes the matcher reports found, keeps "no duplicates", never longer than the probes |
| Allow.AllowedMethods | src/Application.php:201-218 | the reference definition of the allowed methods: found probes, HEAD when GET was found and HEAD was not, duplicates removed; it never holds a method outside the probes |
| Allow.NothingFoundAmong | src/Application.php:205-210 | when no probe is found, nothing is collected |
| Allow.AllowedMethodsMeaning | src/Application.php:201-218 | the allowed methods are exactly the probed methods found, plus HEAD when GET is found; no duplicates; in probe order with HEAD last; never OPTIONS |
| Allow.NothingAllowed | src/Application.php:127-130 | when no probed method is found on the path, the allowed list is empty |
| Koochik.OptionsResponse | src/Application.php:136-137 | status 200, empty body, one `Allow` header whose single value is the Allow list joined with ", " |
| Koochik.NotFoundResponse | src/Application.php:219-223 | the default 404: status 404, no headers, body "404 Not Found" |
| Koochik.MethodNotAllowedResponse | src/Application.php:225-229 | the default 405: status 405, no headers, body "405 Method Not Allowed" |
| Koochik.InternalServerErrorResponse | src/Application.php:231-235 | the default 500: status 500, no headers, body "500 Internal Server Error" |
| Koochik.Application.NotFoundOutcome | src/Application.php:139-146 | the custom not-found handler's response for the request when one is set, else the default 404 |
| Koochik.Application.MethodNotAllowedOutcome | src/Application.php:162-164 | the custom method-not-allowed handler's response for the request when one is set, else the default 405 |
| Koochik.Application.constructor | src/Application.php:22-25 | no global middleware, no named groups, no custom handlers |
| Koochik.Application.SetNotFoundHandler | src/Application.php:27-29 | sets the custom 404 handler; everything else unchanged |
| Koochik.Application.SetMethodNotAllowedHandler | src/Application.php:31-33 | sets the custom 405 handler; everything else unchanged |
| Koochik.Application.Middleware | src/Application.php:99-105 | the global list becomes the old list followed by the argument (a single name wrapped), duplicates kept; nothing else changes |
| Koochik.Application.MiddlewareGroup | src/Application.php:107-111 | `name` now maps to a fresh, empty group; every other name is unchanged; nothing else changes |
| Koochik.Application.Group | src/Application.php:255-257 | as the router's group: stack restored, the new group holds exactly what the script attached to it, earlier routes kept, new routes as the script registers them under the old stack plus the new group and the inner groups they name |
| Koochik.Application.GetMiddlewares | src/Application.php:259-292 | the result is `Resolution.Resolve` of the current state: global, route's own, each group's own, then every referenced named group's current contents |
| Koochik.Application.CollectDirect | src/Application.php:261-281 | the global middleware, the route's own and each group's own, outer to inner; with the route's references followed by each group's |
| Koochik.Application.AppendGroupContents | src/Application.php:285-289 | appends the current contents of each named group, in reference order |
| Koochik.Application.GetAllowedMethods | src/Application.php:201-218 | equals `AllowedMethods`: exactly the found probes plus HEAD when GET is found, no duplicates |
| Http.RouteInfo.Code | src/Contracts/RouteInterface.php:6-8 | the outcome code is 0 exactly for NOT_FOUND, 1 exactly for FOUND and 2 exactly for METHOD_NOT_ALLOWED; any other outcome carries another code |
| Koochik.Application.DispatchRequest | src/Application.php:114-198 | one outcome per matcher case: NOT_FOUND gives the custom or default 404, except that OPTIONS on a path with allowed methods gives the Allow response; METHOD_NOT_ALLOWED gives the Allow response for OPTIONS and the custom or default 405 otherwise; other codes give the 500; FOUND looks the route up and gives its resolved middleware around the handler, or fails when the lookup misses or a referenced group is undeclared; every synthetic response runs through the global middleware only |
| Resolution.ResolveStartsWithGlobal | src/Application.php:261-268 | the resolved list starts with the global middleware, and its length is the sum of all parts |
| Resolution.GroupMiddlewareBeforeRouteExpansion | src/Application.php:276-289 | the resolved list is the directly attached middleware followed by the expansions; an enclosing group's own middleware sits in the first part, past the global and route's own, and an expansion of a name the route itself references sits in the second |
| Resolution.LateBinding | src/Application.php:285-289 | entries appended to a referenced named group after the reference was made still appear in the resolved list |
| Resolution.TwoNestedGroups | src/Application.php:259-292 | for a route under groups A then B: global, own, A's own, B's own, then the expansions of the route's, A's and B's references |
| Pipeline.Links | src/Application.php:295-309 | the runner's list is every middleware in order with the terminal handler appended as the last link |
| Pipeline.Run | src/Application.php:295-309 | the first link that answers (a short-circuiting middleware or the terminal handler) decides the response; when no link answers the response is empty |
| Pipeline.AllPassOn | src/Application.php:295-309 | when every middleware passes the request on, the terminal handler's response is the answer |
| Pipeline.FirstShortCircuitWins | src/Application.php:295-309 | the first middleware that answers decides the response; later links never run |
| Scenarios.GlobalDummies | Tests/Middleware/MiddlewareTest.php:20-24 | the global middleware given once as a list and once as a name: Dummy, Dummy, and no routes |
| Scenarios.GroupArraySetup | Tests/Middleware/MiddlewareTest.php:20-47 | global middleware given as a list and as a name, then a group whose middleware is attached after its callback: the route is `/group-array/middleware-test` under that group |
| Scenarios.GroupMiddlewareAttachedAfterCallback | Tests/Middleware/MiddlewareTest.php:119-128 | that route resolves to Dummy, Dummy, Sample |
| Scenarios.NestedGroupOpened | Tests/Middleware/MiddlewareTest.php:58-66 | a router group nested in a group's callback and given Demo afterwards: the route `/nested-group-array/sub-group/test` sits under the outer group, then the inner group holding Demo |
| Scenarios.NestedGroupSetup | Tests/Middleware/MiddlewareTest.php:58-67 | the outer group is then given Sample |
| Scenarios.NestedGroupMiddleware | Tests/Middleware/MiddlewareTest.php:141-151 | that route resolves to Dummy, Dummy, Sample, Demo |
| Scenarios.CallbackAttachesToOwnGroup | src/koochik/Router.php:34-40 | a callback attaching Auth, registering a route, then attaching Log and "web" to its own group: the group holds Auth, Log and "web", and the route sits directly under it |
| Scenarios.GroupArgumentRepeatsPrefix | src/Group.php:59-63 | a group opened through the callback's own group argument repeats the outer prefix: `/a/a/b/c` |
| Scenarios.ProfileSetup | src/koochik/Route.php:61-67 | a route that refers to the named group "web" |
| Scenarios.LateBoundMiddlewareGroup | src/Application.php:285-289 | declaring "web" and filling it after the reference: the route resolves to Dummy, Auth, Log |
| Scenarios.DefaultMethodNotAllowed | Tests/Routing/NotFoundAndMethodNotAllowedHandlerTest.php:25-40 | POST on a GET-only path: the default 405, with no global middleware configured |
| Scenarios.CustomNotFound | Tests/Routing/NotFoundAndMethodNotAllowedHandlerTest.php:43-55 | the custom not-found handler's response, with no global middleware configured |
| Scenarios.OptionsOnUnknownPath | Tests/Routing/AutomaticOptionsHandlingTest.php:114-120 | OPTIONS on an unknown path gives the 404, not an Allow response |
| Scenarios.OptionsAllowLists | Tests/Routing/AutomaticOptionsHandlingTest.php:84-94 | the Allow lists for GET/POST/DELETE, GET only and POST only |
| Scenarios.UnauthenticatedSetup | Tests/Middleware/MiddlewareTest.php:80-85 | a route whose own middleware is Unauthenticated, after the global Dummy twice |
| Scenarios.UnauthenticatedShortCircuits | Tests/Middleware/MiddlewareTest.php:165-172 | dispatching that route plans Dummy, Dummy, Unauthenticated around the handler; Unauthenticated answering 403 "authenticated" decides the response and the handler does not run |

## Left out

- Sending the response (`run`, `sendTheResponse`) reads superglobals and writes headers and output. This is I/O and is not modelled.
- FastRoute path compilation and matching is a foreign library. The model takes it as a total function `Http.Matcher` from (method, path) to an outcome; nothing ties that function to the registered routes.
- The dependency-injection container is not modelled:
  - turning middleware names into instances (`makeMiddlewaresInstances`);
  - instantiating controllers and calling handlers with the route variables.

  Middleware stay names, and handlers are invoked through a parameter. A name the container cannot resolve is not modelled.
- The Relay runner's internals and the anonymous terminal middleware are not modelled. Only the order of the links and the pass-on / short-circuit rule are (`Pipeline`). Middleware that post-process a response are not modelled.
- Laminas response and stream objects become a plain `Http.Response` record. `withHeader` on a fresh response gives the single `Allow` header.
- Automatic HEAD fallback is not modelled. Tests expect it, but no code implements it.
- `get`, `post`, `put`, `patch`, `delete`, `head`, `options` are `Registry.Router.Register` with a fixed method and no middleware. They have no members of their own.
- The getters are field reads in Dafny and have no members of their own. This covers `getRoutes`, `getMiddlewares`, `getMiddlewareGroups`, `getGroups`, `getName`, `getPrefix`, `getMethod`, `getUri`, `getHandler` and `getContainer`.
- A callback that throws leaves its group on the stack, because the pop is not in a `finally`. Callbacks are scripts that cannot throw, so the model always restores the stack.
- A route's `groups` is uninitialised in PHP until `setGroups` runs; here it starts empty. The router always sets it right away.
- `array_merge` with string keys overwrites entries. The model treats every middleware list as a list.
- Passing a single string to `MiddlewareGroup::middleware` is a type error in PHP. The model's argument is always a list.
- Closure handlers are compared by object identity, modelled as an id. Controller handlers are compared as (class, method) pairs.
- Fatal errors (a route lookup that misses, an undeclared middleware-group name) are `Failure` results of `Koochik.Application.DispatchRequest`. `Koochik.Application.GetMiddlewares` requires that every referenced name is declared.
- A callback's statements that act on groups further out than its own argument, or on the application (global middleware, named groups, handlers), are not part of the script language. Nor can a statement name a route (src/koochik/Route.php:70-73) or attach to a route or a nested group anywhere but straight after registering or opening it. This is why every route a script registers has an empty name.
- Registry.Group.Group: states that the routes of its callback hold the new group itself and that it is fresh, but describes the groups nested further inside the callback by contents (prefix, middleware, references) and depth, not identity. That one nested group is a fresh object shared by all of its routes is stated per statement, by `Registry.Router.NestStep` and `Registry.Router.NestUnderStep`, and by the nested group call's own contract. It is not carried up.
- Registry.Router.Group: the same holds for groups nested inside its callback.
- Registry.Router.RunCallback: the same holds for the groups its script nests.
- Koochik.Application.Group: the same holds, as it delegates to `Registry.Router.Group`.
- `Registry.Group.depth` is ghost bookkeeping with no PHP counterpart. It tells the groups opened inside a callback apart from those already on the stack.
- A custom handler whose response is falsy makes `dispatchRequest` skip the global middleware and return a bare `new Response()` (src/Application.php:185, 198). Handlers are total functions to `Http.Response`, which has no falsy value, so that path is not modelled.
