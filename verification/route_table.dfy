/** The route-table builder of the middleware-based router: routes are kept
    one per path, each holding an action per method and an optional route
    fallback; `compose` mounts another router's routes under a prefix with a
    responder that strips the prefix from the request path. */
module RouteTable {
  import opened Options
  import opened Http
  import opened PathComponents

  /** Responders, symbolically: code the caller supplies is named by an id,
      the middleware by a list of ids. */
  datatype Responder =
    | Caller(id: nat)                                 // a responder or closure of the caller
    | Status(code: int)                               // a responder answering a fixed status
    | Chained(middleware: seq<nat>, to: Responder)    // `middleware.chain(to:)`
    | Stripping(count: nat, router: nat)              // the responder `compose` registers

  /** What running a responder on a request comes to. */
  datatype Reply =
    | Answered(status: int)
    | Called(responder: nat, request: Request)
    | Forwarded(router: nat, request: Request)
    | Intercepted(middleware: seq<nat>, inner: Responder, request: Request)

  /** The response to a request with no path. */
  const BadRequest: int := 400

  /** The default global fallback answers 404. */
  const NotFoundStatus: int := 404

  /** Running a responder. The composing responder answers 400 when the request
      has no path, and otherwise hands the sub-router the request with its path
      stripped of the mount prefix's components. An empty middleware chain is
      the responder itself; other middleware is not modelled. */
  function Run(r: Responder, req: Request): (reply: Reply)
    ensures r.Stripping? && req.path.None? ==> reply == Answered(BadRequest)
    ensures r.Stripping? && req.path.Some? ==>
      && reply.Forwarded? && reply.router == r.router
      && reply.request.verb == req.verb && reply.request.parameters == req.parameters
      && reply.request.path.Some?
      && Split(reply.request.path.value) == if r.count <= |Split(req.path.value)| then Split(req.path.value)[r.count..] else []
    ensures r.Stripping? && req.path.Some? ==>
      reply == Forwarded(r.router, req.(path := Some(Strip(req.path.value, r.count))))
  {
    match r
    case Caller(id) => Called(id, req)
    case Status(code) => Answered(code)
    case Chained(mw, to) => if mw == [] then Run(to, req) else Intercepted(mw, to, req)
    case Stripping(n, id) =>
      if req.path.None? then Answered(BadRequest)
      else
        StripComponents(req.path.value, n);
        Forwarded(id, req.(path := Some(Strip(req.path.value, n))))
  }

  /** A route of the table: its full path, its actions and its own fallback
      (`None`: the route type's default). */
  datatype Route = Route(path: string, actions: map<Method, Responder>, fallback: Option<Responder>)

  /** The builder's state: its path prefix, its routes and its global fallback. */
  datatype Builder = Builder(path: string, routes: seq<Route>, fallback: Responder)

  /** `RouterBuilder(path:)`: no routes, and a fallback that answers 404. */
  function NewBuilder(path: string): (b: Builder)
    ensures b.path == path && b.routes == []
    ensures forall req :: Run(b.fallback, req) == Answered(NotFoundStatus)
  {
    Builder(path, [], Status(NotFoundStatus))
  }

  // ---------------------------------------------------------------------------
  // Looking routes up

  /** `route(for:)`: the position of the first route with exactly this path. */
  function RouteFor(routes: seq<Route>, path: string): (r: Option<nat>)
    ensures r.Some? ==> r.value < |routes| && routes[r.value].path == path
    ensures r.Some? ==> forall j | 0 <= j < r.value :: routes[j].path != path
    ensures r.None? ==> forall j | 0 <= j < |routes| :: routes[j].path != path
  {
    if routes == [] then None
    else if routes[0].path == path then Some(0)
    else match RouteFor(routes[1..], path)
      case None => None
      case Some(i) => Some(i + 1)
  }

  /** The action the table holds for a path and a method. */
  function ActionOf(routes: seq<Route>, path: string, m: Method): Option<Responder> {
    match RouteFor(routes, path)
    case None => None
    case Some(i) => if m in routes[i].actions then Some(routes[i].actions[m]) else None
  }

  /** The route fallback the table holds for a path. */
  function FallbackOf(routes: seq<Route>, path: string): Option<Responder> {
    match RouteFor(routes, path)
    case None => None
    case Some(i) => routes[i].fallback
  }

  /** No two routes share a path. */
  predicate UniquePaths(routes: seq<Route>) {
    forall i, j | 0 <= i < j < |routes| :: routes[i].path != routes[j].path
  }

  /** Tables with the same paths in the same order find the same route. */
  lemma {:induction false} RouteForSamePaths(a: seq<Route>, b: seq<Route>, path: string)
    requires |a| == |b| && forall j | 0 <= j < |a| :: a[j].path == b[j].path
    ensures RouteFor(a, path) == RouteFor(b, path)
    decreases |a|
  {
    if a != [] && a[0].path != path {
      RouteForSamePaths(a[1..], b[1..], path);
    }
  }

  // ---------------------------------------------------------------------------
  // Registering

  /** `addRoute` with the action already chained: add the action to the route
      with the effective path `self.path + path`, or append a route holding only
      that action. */
  function AddAction(b: Builder, m: Method, path: string, action: Responder): (r: Builder)
    ensures r.path == b.path && r.fallback == b.fallback
    ensures |r.routes| == |b.routes| + (if RouteFor(b.routes, b.path + path).Some? then 0 else 1)
    ensures r.routes[..|b.routes|] == b.routes || |r.routes| == |b.routes|
    ensures RouteFor(b.routes, b.path + path).Some? ==>
      var i := RouteFor(b.routes, b.path + path).value;
      r.routes == b.routes[i := b.routes[i].(actions := b.routes[i].actions[m := action])]
    ensures RouteFor(b.routes, b.path + path).None? ==>
      r.routes == b.routes + [Route(b.path + path, map[m := action], None)]
  {
    var full := b.path + path;
    match RouteFor(b.routes, full)
    case Some(i) =>
      var route := b.routes[i];
      b.(routes := b.routes[i := route.(actions := route.actions[m := action])])
    case None =>
      var r := b.(routes := b.routes + [Route(full, map[m := action], None)]);
      assert r.routes[..|b.routes|] == b.routes;
      r
  }

  /** `addRoute(method:path:middleware:responder:)`: the effective path answers the
      method with the responder behind the middleware; lookups of other paths
      are unchanged. */
  function AddRoute(b: Builder, m: Method, path: string, middleware: seq<nat>, responder: Responder): (r: Builder)
    ensures r.path == b.path && r.fallback == b.fallback
    ensures ActionOf(r.routes, b.path + path, m) == Some(Chained(middleware, responder))
    ensures FallbackOf(r.routes, b.path + path) == FallbackOf(b.routes, b.path + path)
  {
    AddActionSpec(b, m, path, Chained(middleware, responder), b.path + path, m);
    AddAction(b, m, path, Chained(middleware, responder))
  }

  /** After `addRoute` the effective path answers the method with the chained
      responder; every other path and method keeps its action, and every route
      fallback is kept. */
  lemma AddActionSpec(b: Builder, m: Method, path: string, action: Responder, p: string, m2: Method)
    ensures var r := AddAction(b, m, path, action);
      && ActionOf(r.routes, p, m2) == (if p == b.path + path && m2 == m then Some(action) else ActionOf(b.routes, p, m2))
      && FallbackOf(r.routes, p) == FallbackOf(b.routes, p)
  {
    var full := b.path + path;
    var r := AddAction(b, m, path, action);
    match RouteFor(b.routes, full)
    case Some(i) =>
      var route := b.routes[i].(actions := b.routes[i].actions[m := action]);
      assert r.routes == b.routes[i := route];
      UpdateLookup(b.routes, i, route, p, m2);
    case None =>
      var route := Route(full, map[m := action], None);
      assert r.routes == b.routes + [route];
      RouteForAppend(b.routes, route, p);
  }

  /** Replacing route `i` by one with the same path changes lookups of that path
      only. */
  lemma UpdateLookup(routes: seq<Route>, i: nat, route: Route, p: string, m: Method)
    requires i < |routes| && route.path == routes[i].path
    ensures var rs := routes[i := route];
      && RouteFor(rs, p) == RouteFor(routes, p)
      && (RouteFor(routes, p) != Some(i) ==> ActionOf(rs, p, m) == ActionOf(routes, p, m) && FallbackOf(rs, p) == FallbackOf(routes, p))
      && (RouteFor(routes, p) == Some(i) ==>
          && ActionOf(rs, p, m) == (if m in route.actions then Some(route.actions[m]) else None)
          && FallbackOf(rs, p) == route.fallback)
  {
    RouteForSamePaths(routes, routes[i := route], p);
  }

  /** Appending a route with a new path: lookups of other paths are unchanged,
      and the new path is found at the end. */
  lemma RouteForAppend(routes: seq<Route>, route: Route, p: string)
    requires RouteFor(routes, route.path).None?
    ensures RouteFor(routes + [route], p) == if p == route.path then Some(|routes|) else RouteFor(routes, p)
  {
    var all := routes + [route];
    var r := RouteFor(all, p);
    if r.Some? && r.value < |routes| {
      assert all[r.value] == routes[r.value];
    }
    match RouteFor(routes, p)
    case Some(i) =>
      assert all[i] == routes[i];
    case None =>
      assert all[|routes|] == route;
  }

  /** `addRoute` keeps the paths unique: a second method on a known path joins
      the existing route instead of adding one. */
  lemma AddActionKeepsUnique(b: Builder, m: Method, path: string, action: Responder)
    requires UniquePaths(b.routes)
    ensures UniquePaths(AddAction(b, m, path, action).routes)
  {
    var r := AddAction(b, m, path, action);
    var full := b.path + path;
    if RouteFor(b.routes, full).None? {
      assert forall j | 0 <= j < |b.routes| :: r.routes[j] == b.routes[j];
      assert r.routes[|b.routes|].path == full;
    }
  }

  /** `addRouteFallback`: set the fallback of the route with the effective path,
      or append a route holding only that fallback and no actions. */
  function AddRouteFallback(b: Builder, path: string, middleware: seq<nat>, responder: Responder): (r: Builder)
    ensures r.path == b.path && r.fallback == b.fallback
    ensures |r.routes| == |b.routes| + (if RouteFor(b.routes, b.path + path).Some? then 0 else 1)
  {
    var full := b.path + path;
    var fallback := Chained(middleware, responder);
    match RouteFor(b.routes, full)
    case Some(i) => b.(routes := b.routes[i := b.routes[i].(fallback := Some(fallback))])
    case None => b.(routes := b.routes + [Route(full, map[], Some(fallback))])
  }

  /** After `addRouteFallback` the effective path has the chained fallback, every
      other path keeps its fallback, and no action changes. */
  lemma AddRouteFallbackSpec(b: Builder, path: string, middleware: seq<nat>, responder: Responder, p: string, m: Method)
    ensures var r := AddRouteFallback(b, path, middleware, responder);
      && FallbackOf(r.routes, p) == (if p == b.path + path then Some(Chained(middleware, responder)) else FallbackOf(b.routes, p))
      && ActionOf(r.routes, p, m) == ActionOf(b.routes, p, m)
  {
    var full := b.path + path;
    var r := AddRouteFallback(b, path, middleware, responder);
    match RouteFor(b.routes, full)
    case Some(i) =>
      var route := b.routes[i].(fallback := Some(Chained(middleware, responder)));
      assert r.routes == b.routes[i := route];
      UpdateLookup(b.routes, i, route, p, m);
    case None =>
      var route := Route(full, map[], Some(Chained(middleware, responder)));
      assert r.routes == b.routes + [route];
      RouteForAppend(b.routes, route, p);
  }

  /** `get`, `options`, `post`, `put`, `patch` and `delete`: `addRoute` with the
      one method. */
  function Get(b: Builder, path: string, middleware: seq<nat>, responder: Responder): (r: Builder)
    ensures r.path == b.path && r.fallback == b.fallback
    ensures ActionOf(r.routes, b.path + path, GET) == Some(Chained(middleware, responder))
  {
    AddRoute(b, GET, path, middleware, responder)
  }

  function OptionsMethod(b: Builder, path: string, middleware: seq<nat>, responder: Responder): (r: Builder)
    ensures r.path == b.path && r.fallback == b.fallback
    ensures ActionOf(r.routes, b.path + path, OPTIONS) == Some(Chained(middleware, responder))
  {
    AddRoute(b, OPTIONS, path, middleware, responder)
  }

  function Post(b: Builder, path: string, middleware: seq<nat>, responder: Responder): (r: Builder)
    ensures r.path == b.path && r.fallback == b.fallback
    ensures ActionOf(r.routes, b.path + path, POST) == Some(Chained(middleware, responder))
  {
    AddRoute(b, POST, path, middleware, responder)
  }

  function Put(b: Builder, path: string, middleware: seq<nat>, responder: Responder): (r: Builder)
    ensures r.path == b.path && r.fallback == b.fallback
    ensures ActionOf(r.routes, b.path + path, PUT) == Some(Chained(middleware, responder))
  {
    AddRoute(b, PUT, path, middleware, responder)
  }

  function Patch(b: Builder, path: string, middleware: seq<nat>, responder: Responder): (r: Builder)
    ensures r.path == b.path && r.fallback == b.fallback
    ensures ActionOf(r.routes, b.path + path, PATCH) == Some(Chained(middleware, responder))
  {
    AddRoute(b, PATCH, path, middleware, responder)
  }

  function Delete(b: Builder, path: string, middleware: seq<nat>, responder: Responder): (r: Builder)
    ensures r.path == b.path && r.fallback == b.fallback
    ensures ActionOf(r.routes, b.path + path, DELETE) == Some(Chained(middleware, responder))
  {
    AddRoute(b, DELETE, path, middleware, responder)
  }

  /** `fallback(_:middleware:responder:)`: a route fallback for one path, which
      leaves that path's actions alone. */
  function RouteFallback(b: Builder, path: string, middleware: seq<nat>, responder: Responder): (r: Builder)
    ensures r.path == b.path && r.fallback == b.fallback
    ensures FallbackOf(r.routes, b.path + path) == Some(Chained(middleware, responder))
    ensures forall m :: ActionOf(r.routes, b.path + path, m) == ActionOf(b.routes, b.path + path, m)
  {
    AddRouteFallbackAt(b, path, middleware, responder);
    AddRouteFallback(b, path, middleware, responder)
  }

  /** AddRouteFallbackSpec at the effective path, for every method. */
  lemma AddRouteFallbackAt(b: Builder, path: string, middleware: seq<nat>, responder: Responder)
    ensures var r := AddRouteFallback(b, path, middleware, responder);
      && FallbackOf(r.routes, b.path + path) == Some(Chained(middleware, responder))
      && forall m :: ActionOf(r.routes, b.path + path, m) == ActionOf(b.routes, b.path + path, m)
  {
    AddRouteFallbackSpec(b, path, middleware, responder, b.path + path, GET);
    forall m {
      AddRouteFallbackSpec(b, path, middleware, responder, b.path + path, m);
    }
  }

  /** `fallback(middleware:responder:)`: replace the global fallback. */
  function SetFallback(b: Builder, middleware: seq<nat>, responder: Responder): (r: Builder)
    ensures r.path == b.path && r.routes == b.routes
    ensures forall req :: Run(r.fallback, req) == Run(Chained(middleware, responder), req)
  {
    b.(fallback := Chained(middleware, responder))
  }

  // ---------------------------------------------------------------------------
  // Several methods at once

  /** The map giving `action` to every method of `methods` and keeping `actions`
      for the others. */
  function Override(actions: map<Method, Responder>, methods: set<Method>, action: Responder): (r: map<Method, Responder>)
    ensures r.Keys == actions.Keys + methods
    ensures forall m | m in methods :: r[m] == action
    ensures forall m | m in actions && m !in methods :: r[m] == actions[m]
  {
    map m | m in actions.Keys + methods :: if m in methods then action else actions[m]
  }

  /** The table after adding `action` for every method of `methods` on one path,
      in closed form: the route with the effective path gets the actions; if
      there is none, one route holding them is appended (none when the set is
      empty). */
  function AddAll(b: Builder, methods: set<Method>, path: string, action: Responder): (r: Builder)
    ensures r.path == b.path && r.fallback == b.fallback
    ensures |r.routes| == |b.routes| + (if RouteFor(b.routes, b.path + path).None? && methods != {} then 1 else 0)
  {
    var full := b.path + path;
    match RouteFor(b.routes, full)
    case Some(i) =>
      b.(routes := b.routes[i := b.routes[i].(actions := Override(b.routes[i].actions, methods, action))])
    case None =>
      if methods == {} then b else b.(routes := b.routes + [Route(full, Override(map[], methods, action), None)])
  }

  /** Adding no method changes nothing. */
  lemma AddAllNone(b: Builder, path: string, action: Responder)
    ensures AddAll(b, {}, path, action) == b
  {
    match RouteFor(b.routes, b.path + path)
    case Some(i) =>
      assert Override(b.routes[i].actions, {}, action) == b.routes[i].actions;
      assert b.routes[i := b.routes[i]] == b.routes;
    case None =>
  }

  /** One more method: `addRoute` on the closed form of a set is the closed form
      of the set with that method added. */
  lemma AddAllStep(b: Builder, methods: set<Method>, m: Method, path: string, action: Responder)
    requires m !in methods
    ensures AddAction(AddAll(b, methods, path, action), m, path, action) == AddAll(b, methods + {m}, path, action)
  {
    match RouteFor(b.routes, b.path + path)
    case Some(i) => AddAllStepFound(b, methods, m, path, action, i);
    case None =>
      if methods == {} {
        AddAllStepFirst(b, m, path, action);
      } else {
        AddAllStepAppended(b, methods, m, path, action);
      }
  }

  /** The step when the effective path has a route. */
  lemma AddAllStepFound(b: Builder, methods: set<Method>, m: Method, path: string, action: Responder, i: nat)
    requires RouteFor(b.routes, b.path + path) == Some(i)
    ensures AddAction(AddAll(b, methods, path, action), m, path, action) == AddAll(b, methods + {m}, path, action)
  {
    var full := b.path + path;
    var a := b.routes[i].actions;
    var route := b.routes[i].(actions := Override(a, methods, action));
    var before := AddAll(b, methods, path, action);
    assert before.routes == b.routes[i := route];
    UpdateLookup(b.routes, i, route, full, m);
    OverrideOneMore(a, methods, m, action);
    assert before.routes[i := route.(actions := route.actions[m := action])]
      == b.routes[i := b.routes[i].(actions := Override(a, methods + {m}, action))];
  }

  /** Overriding one more method is a map update. */
  lemma OverrideOneMore(actions: map<Method, Responder>, methods: set<Method>, m: Method, action: Responder)
    ensures Override(actions, methods, action)[m := action] == Override(actions, methods + {m}, action)
  {
  }

  /** The first method on a new path appends its route. */
  lemma AddAllStepFirst(b: Builder, m: Method, path: string, action: Responder)
    requires RouteFor(b.routes, b.path + path).None?
    ensures AddAction(AddAll(b, {}, path, action), m, path, action) == AddAll(b, {} + {m}, path, action)
  {
    assert {} + {m} == {m};
    assert map[m := action] == Override(map[], {m}, action);
  }

  /** Later methods on a new path join the appended route. */
  lemma AddAllStepAppended(b: Builder, methods: set<Method>, m: Method, path: string, action: Responder)
    requires RouteFor(b.routes, b.path + path).None? && methods != {}
    ensures AddAction(AddAll(b, methods, path, action), m, path, action) == AddAll(b, methods + {m}, path, action)
  {
    var full := b.path + path;
    var route := Route(full, Override(map[], methods, action), None);
    RouteForAppend(b.routes, route, full);
    OverrideOneMore(map[], methods, m, action);
  }

  /** Adding one action for each method of a set, one method at a time in an
      order the set does not fix: whatever the order, the table ends up in the
      closed form. */
  method AddMethods(b: Builder, methods: set<Method>, path: string, action: Responder) returns (r: Builder)
    ensures r == AddAll(b, methods, path, action)
  {
    r := b;
    var todo, done := methods, {};
    AddAllNone(b, path, action);
    while todo != {}
      invariant todo + done == methods && todo !! done
      invariant r == AddAll(b, done, path, action)
      decreases todo
    {
      var m :| m in todo;
      AddAllStep(b, done, m, path, action);
      r := AddAction(r, m, path, action);
      todo, done := todo - {m}, done + {m};
    }
  }

  /** `methods(methods:path:middleware:responder:)`. */
  method Methods(b: Builder, methods: set<Method>, path: string, middleware: seq<nat>, responder: Responder) returns (r: Builder)
    ensures r == AddAll(b, methods, path, Chained(middleware, responder))
  {
    r := AddMethods(b, methods, path, Chained(middleware, responder));
  }

  /** The closed form sets the action for exactly the methods of the set on the
      effective path and changes no other action and no route fallback. */
  lemma AddAllSpec(b: Builder, methods: set<Method>, path: string, action: Responder, p: string, m: Method)
    ensures var r := AddAll(b, methods, path, action);
      && ActionOf(r.routes, p, m) == (if p == b.path + path && m in methods then Some(action) else ActionOf(b.routes, p, m))
      && FallbackOf(r.routes, p) == FallbackOf(b.routes, p)
  {
    var full := b.path + path;
    var r := AddAll(b, methods, path, action);
    match RouteFor(b.routes, full)
    case Some(i) =>
      UpdateLookup(b.routes, i, b.routes[i].(actions := Override(b.routes[i].actions, methods, action)), p, m);
    case None =>
      if methods != {} {
        RouteForAppend(b.routes, Route(full, Override(map[], methods, action), None), p);
      }
  }

  // ---------------------------------------------------------------------------
  // Composition

  /** A router to mount: the id its responses are reported under, and its routes. */
  datatype SubRouter = SubRouter(id: nat, routes: seq<Route>)

  /** The action `compose` registers: the middleware chained to the responder
      that strips the prefix's components and forwards to the sub-router. */
  function ComposeAction(b: Builder, path: string, middleware: seq<nat>, sub: SubRouter): Responder {
    Chained(middleware, Stripping(|Split(b.path + path)|, sub.id))
  }

  /** The route loop of `compose`, in closed form: for every route of the
      sub-router, every method it has an action for gets `action` on
      `path + route.path`. */
  function ComposeRoutes(b: Builder, path: string, routes: seq<Route>, action: Responder): (r: Builder)
    ensures r.path == b.path && r.fallback == b.fallback
    decreases |routes|
  {
    if routes == [] then b
    else ComposeRoutes(AddAll(b, routes[0].actions.Keys, path + routes[0].path, action), path, routes[1..], action)
  }

  /** `compose(_:middleware:router:)`: mount `sub` at `path` below this
      builder's path. */
  method Compose(b: Builder, path: string, middleware: seq<nat>, sub: SubRouter) returns (r: Builder)
    ensures r == ComposeRoutes(b, path, sub.routes, ComposeAction(b, path, middleware, sub))
  {
    var action := ComposeAction(b, path, middleware, sub);
    r := b;
    var i := 0;
    while i < |sub.routes|
      invariant i <= |sub.routes|
      invariant ComposeRoutes(r, path, sub.routes[i..], action) == ComposeRoutes(b, path, sub.routes, action)
      invariant r.path == b.path
    {
      assert sub.routes[i..][1..] == sub.routes[i + 1..];
      r := AddMethods(r, sub.routes[i].actions.Keys, path + sub.routes[i].path, action);
      i := i + 1;
    }
  }

  /** Whether `compose` registers an action for path `p` and method `m`. */
  predicate Mounted(base: string, path: string, routes: seq<Route>, p: string, m: Method) {
    exists i | 0 <= i < |routes| :: p == base + (path + routes[i].path) && m in routes[i].actions
  }

  /** After `compose`, every method of every mounted route answers with the
      composing action at the prefixed path; every other action, and every route
      fallback, is as before. */
  lemma {:induction false} ComposeSpec(b: Builder, path: string, routes: seq<Route>, action: Responder, p: string, m: Method)
    ensures var r := ComposeRoutes(b, path, routes, action);
      && ActionOf(r.routes, p, m) == (if Mounted(b.path, path, routes, p, m) then Some(action) else ActionOf(b.routes, p, m))
      && FallbackOf(r.routes, p) == FallbackOf(b.routes, p)
    decreases |routes|
  {
    if routes != [] {
      var next := AddAll(b, routes[0].actions.Keys, path + routes[0].path, action);
      AddAllSpec(b, routes[0].actions.Keys, path + routes[0].path, action, p, m);
      ComposeSpec(next, path, routes[1..], action, p, m);
      MountedCons(b.path, path, routes, p, m);
    }
  }

  /** A route is mounted by the first route or by the others. */
  lemma MountedCons(base: string, path: string, routes: seq<Route>, p: string, m: Method)
    requires routes != []
    ensures Mounted(base, path, routes, p, m)
      <==> (p == base + (path + routes[0].path) && m in routes[0].actions) || Mounted(base, path, routes[1..], p, m)
  {
    if Mounted(base, path, routes[1..], p, m) {
      var i :| 0 <= i < |routes[1..]| && p == base + (path + routes[1..][i].path) && m in routes[1..][i].actions;
      assert routes[i + 1] == routes[1..][i];
    }
    if Mounted(base, path, routes, p, m) && !(p == base + (path + routes[0].path) && m in routes[0].actions) {
      var i :| 0 <= i < |routes| && p == base + (path + routes[i].path) && m in routes[i].actions;
      assert routes[1..][i - 1] == routes[i];
    }
  }
}
