/** The router shared by the four regex-pattern versions of the package
    (`HTTPRouter`, its `Spell` and `Sources` copies, and the later `Router`):
    routes with a compiled path pattern and a method set, a builder that
    appends routes under a base path, and a router that answers with the
    first matching route or the fallback.

    Handlers are opaque: a reply records which external handler was called
    with which request, or the response a built-in handler returns. */
module PatternRouter {
  import opened Options
  import opened Http
  import opened RoutePattern
  import opened CaptureSlots

  /** A request handler. `Closure(id)` is caller-supplied code; `Constant(r)` is a
      built-in handler that returns `r`; `WithId(id)` is a resource handler that
      calls caller-supplied code `id` with the request and its `id` parameter. */
  datatype Handler = Closure(id: nat) | Constant(response: Response) | WithId(id: nat)

  /** The outcome of handling a request: a response a built-in handler returned,
      a call into caller-supplied code (whose result or error is passed through),
      a runtime trap (a forced unwrap of a missing value, an index out of range),
      or a loop that never ends. */
  datatype Reply =
    | Returned(response: Response)
    | Called(handler: nat, request: Request)
    | CalledWithId(handler: nat, request: Request, id: string)
    | Trapped
    | Diverged

  /** Running a handler on a request. A resource handler force-unwraps the `id`
      parameter, so it traps when the parameter is absent. */
  function Invoke(h: Handler, req: Request): (r: Reply)
    ensures h.Constant? ==> r == Returned(h.response)
    ensures h.Closure? ==> r == Called(h.id, req)
    ensures h.WithId? ==> (r.Trapped? <==> "id" !in req.parameters)
    ensures h.WithId? && "id" in req.parameters ==> r == CalledWithId(h.id, req, req.parameters["id"])
  {
    match h
    case Closure(id) => Called(id, req)
    case Constant(response) => Returned(response)
    case WithId(id) => if "id" in req.parameters then CalledWithId(id, req, req.parameters["id"]) else Trapped
  }

  /** A route: its full path, the methods it answers and its handler. The pattern
      and the parameter keys are compiled from the path (see RoutePattern). */
  datatype Route = Route(path: string, methods: set<Method>, handler: Handler)

  /** Whether the anchored pattern of `route` matches the whole of `path`. */
  predicate PathMatches(route: Route, path: string) {
    Match(Compile(route.path), path).Some?
  }

  /** `matchesRequest`: the request path matches the route's pattern and the
      request method is one of the route's methods. The source force-unwraps the
      path, so the caller must have one. */
  predicate MatchesRequest(route: Route, req: Request)
    requires req.path.Some?
  {
    PathMatches(route, req.path.value) && req.verb in route.methods
  }

  /** A route matches a request exactly when the request path is an instance of
      the route's pattern, for some captures, and the method is one of the route's. */
  lemma MatchesRequestIff(route: Route, req: Request)
    requires ValidRoutePath(route.path) && req.path.Some?
    ensures MatchesRequest(route, req) <==>
      && req.verb in route.methods
      && exists vs | |vs| == |Keys(route.path)| && AllCaptures(vs) :: Instantiate(Compile(route.path), vs) == req.path.value
  {
    var ts, p := Compile(route.path), req.path.value;
    if Match(ts, p).Some? {
      var vs := Match(ts, p).value;
      assert Instantiate(ts, vs) == p;
    }
    forall vs | |vs| == |Keys(route.path)| && AllCaptures(vs) && Instantiate(ts, vs) == p
      ensures Match(ts, p).Some?
    {
      MatchIff(route.path, p, vs);
    }
  }

  /** Binding captured values to parameter keys in key order, as the loop
      `parameters[keys[i]] = values[i]` does: every key gets the value of its last
      occurrence, every other parameter is left as it was. */
  function Bind(params: map<string, string>, keys: seq<string>, values: seq<string>): (r: map<string, string>)
    requires |keys| <= |values|
    ensures r.Keys == params.Keys + set k | k in keys
    ensures forall k | k in params && k !in keys :: r[k] == params[k]
    ensures forall i | 0 <= i < |keys| && LastOccurrence(keys, i) :: r[keys[i]] == values[i]
    decreases |keys|
  {
    if keys == [] then params
    else
      var r := Bind(params[keys[0] := values[0]], keys[1..], values[1..]);
      KeysTail(keys);
      r
  }

  /** The keys after the first: the same keys but possibly the first, and the same
      last occurrences, one position earlier. */
  lemma KeysTail(keys: seq<string>)
    requires keys != []
    ensures forall i | 1 <= i < |keys| && LastOccurrence(keys, i) :: LastOccurrence(keys[1..], i - 1) && keys[1..][i - 1] == keys[i]
    ensures forall k | k in keys[1..] :: k in keys
    ensures forall k | k in keys :: k == keys[0] || k in keys[1..]
  {
    assert forall i | 1 <= i < |keys| && LastOccurrence(keys, i) :: LastOccurrence(keys[1..], i - 1) && keys[1..][i - 1] == keys[i];
  }

  /** Position `i` holds the last occurrence of its key. */
  predicate LastOccurrence(keys: seq<string>, i: nat)
    requires i < |keys|
  {
    forall j | i < j < |keys| :: keys[j] != keys[i]
  }

  /** What `Regex.groups` gives back for a route's anchored pattern on a request
      path: the groups it read, a trap in the slot loop, or a search loop that
      never ends. */
  datatype Groups = Read(values: seq<string>) | SlotTrap | NoEnd

  /** `Regex.groups` with a route's anchored pattern on a request path. Without a
      match there are no groups. After a match the slot loop reads the match's
      groups out of the ten slots (see CaptureSlots), and then the search loop
      searches again in what is left of the string, which is empty; an anchored
      pattern that matches the empty string matches it again, forever. */
  function RouteGroups(ts: seq<Token>, path: string): (g: Groups)
    ensures Match(ts, path).None? ==> g == Read([])
    ensures Match(ts, path).Some? && |ParamNames(ts)| >= SlotCount - 1 ==> g == SlotTrap
    ensures Match(ts, path).Some? && |ParamNames(ts)| < SlotCount - 1 && ts != [] ==> g == Read(Match(ts, path).value)
    ensures g == NoEnd <==> ts == [] && path == []
  {
    match Match(ts, path)
    case None => Read([])
    case Some(vs) =>
      ReadGroupsTrapsAtNine(|vs|);
      match ReadGroups(Slots(|vs|), 1)
      case None => SlotTrap
      case Some(n) =>
        MatchEmptyIff(ts);
        assert vs[..n] == vs;
        if Match(ts, []).Some? then NoEnd else Read(vs[..n])
  }

  /** Only the empty pattern matches the empty string: every token consumes at
      least one character. */
  lemma MatchEmptyIff(ts: seq<Token>)
    ensures Match(ts, []).Some? <==> ts == []
  {
  }

  /** `HTTPRoute.respond`: read the groups of the request path, bind them to the
      route's keys on a copy of the request, and call the handler. A matching
      route with nine or more parameters fills every capture slot, and the slot
      loop traps before the handler is reached. */
  function RouteRespond(route: Route, req: Request): (r: Reply)
    ensures req.path.None? ==> r == Trapped
    ensures req.path.Some? && route.path == [] && req.path.value == [] ==> r == Diverged
    ensures req.path.Some? && MatchesRequest(route, req) && |Keys(route.path)| >= SlotCount - 1 ==> r == Trapped
    ensures req.path.Some? && route.path != [] && MatchesRequest(route, req) && |Keys(route.path)| < SlotCount - 1 ==>
      r == Invoke(route.handler, BoundRequest(route, req))
  {
    if req.path.None? then Trapped
    else
      var keys := Keys(route.path);
      match RouteGroups(Compile(route.path), req.path.value)
      case NoEnd => Diverged
      case SlotTrap => Trapped
      case Read(values) =>
        if |values| < |keys| then Trapped
        else Invoke(route.handler, req.(parameters := Bind(req.parameters, keys, values)))
  }

  /** The request a matched route hands to its handler: the request with the
      route's keys bound to the captures of its path. */
  function BoundRequest(route: Route, req: Request): (r: Request)
    requires req.path.Some? && PathMatches(route, req.path.value)
    ensures r.verb == req.verb && r.path == req.path
    ensures r.parameters.Keys == req.parameters.Keys + set k | k in Keys(route.path)
    ensures forall k | k in req.parameters && k !in Keys(route.path) :: r.parameters[k] == req.parameters[k]
    ensures forall i | 0 <= i < |Keys(route.path)| && LastOccurrence(Keys(route.path), i) ::
      r.parameters[Keys(route.path)[i]] == Match(Compile(route.path), req.path.value).value[i]
  {
    var vs := Match(Compile(route.path), req.path.value).value;
    req.(parameters := Bind(req.parameters, Keys(route.path), vs))
  }

  /** A route whose path has no parameters answers a request for exactly that
      path by handing the request to its handler unchanged. */
  lemma LiteralRouteKeepsRequest(route: Route, req: Request)
    requires ':' !in route.path && route.path != []
    requires req.path == Some(route.path) && req.verb in route.methods
    ensures RouteRespond(route, req) == Invoke(route.handler, req)
  {
    LiteralPathMatchesItself(route.path, route.path);
    assert BoundRequest(route, req).parameters == req.parameters;
  }

  /** A route whose path has no parameters matches no other path. */
  lemma LiteralRouteMisses(route: Route, req: Request)
    requires ':' !in route.path && req.path.Some? && req.path.value != route.path
    ensures !MatchesRequest(route, req)
  {
    LiteralPathMatchesItself(route.path, req.path.value);
  }

  /** A router: its routes in registration order and its fallback. */
  datatype Router = Router(routes: seq<Route>, fallback: Handler)

  /** The dispatch loop: the first route that matches answers, else the fallback.
      Testing a route force-unwraps the request path. */
  function Dispatch(routes: seq<Route>, fallback: Handler, req: Request): (r: Reply)
    ensures routes == [] ==> r == Invoke(fallback, req)
    ensures routes != [] && req.path.None? ==> r == Trapped
    decreases |routes|
  {
    if routes == [] then Invoke(fallback, req)
    else if req.path.None? then Trapped
    else if MatchesRequest(routes[0], req) then RouteRespond(routes[0], req)
    else Dispatch(routes[1..], fallback, req)
  }

  /** The first matching route answers: routes after it are never consulted. */
  lemma {:induction false} DispatchFirstMatch(routes: seq<Route>, fallback: Handler, req: Request, i: nat)
    requires req.path.Some? && i < |routes| && FirstMatch(routes, req, i)
    ensures Dispatch(routes, fallback, req) == RouteRespond(routes[i], req)
    decreases i
  {
    if i > 0 {
      assert !MatchesRequest(routes[..i][0], req);
      assert routes[1..][..i - 1] == routes[..i][1..];
      NoneMatchesTail(routes[..i], req);
      DispatchFirstMatch(routes[1..], fallback, req, i - 1);
    }
  }

  /** When no route matches, the fallback answers. */
  lemma {:induction false} DispatchNoMatch(routes: seq<Route>, fallback: Handler, req: Request)
    requires req.path.Some? && NoneMatches(routes, req)
    ensures Dispatch(routes, fallback, req) == Invoke(fallback, req)
    decreases |routes|
  {
    if routes != [] {
      assert !MatchesRequest(routes[0], req);
      NoneMatchesTail(routes, req);
      DispatchNoMatch(routes[1..], fallback, req);
    }
  }

  /** No route of `routes` matches the request. */
  predicate NoneMatches(routes: seq<Route>, req: Request)
    requires req.path.Some?
  {
    forall i | 0 <= i < |routes| :: !MatchesRequest(routes[i], req)
  }

  /** A suffix of routes none of which matches has no match either. */
  lemma NoneMatchesTail(routes: seq<Route>, req: Request)
    requires req.path.Some? && routes != [] && NoneMatches(routes, req)
    ensures NoneMatches(routes[1..], req)
  {
    forall j | 0 <= j < |routes| - 1
      ensures !MatchesRequest(routes[1..][j], req)
    {
      assert routes[1..][j] == routes[j + 1];
    }
  }

  /** Route `i` is the first route of `routes` that matches the request. */
  predicate FirstMatch(routes: seq<Route>, req: Request, i: nat)
    requires req.path.Some? && i < |routes|
  {
    MatchesRequest(routes[i], req) && NoneMatches(routes[..i], req)
  }

  /** Registration order decides: appending routes never changes the answer to a
      request an earlier route matches, and a request no earlier route matches is
      answered as if only the appended routes were there. */
  lemma {:induction false} DispatchAppend(routes: seq<Route>, extra: seq<Route>, fallback: Handler, req: Request)
    requires req.path.Some?
    ensures !NoneMatches(routes, req) ==> Dispatch(routes + extra, fallback, req) == Dispatch(routes, fallback, req)
    ensures NoneMatches(routes, req) ==> Dispatch(routes + extra, fallback, req) == Dispatch(extra, fallback, req)
    decreases |routes|
  {
    if routes == [] {
      assert routes + extra == extra;
    } else {
      var all := routes + extra;
      assert all[0] == routes[0] && all[1..] == routes[1..] + extra;
      if !MatchesRequest(routes[0], req) {
        DispatchAppend(routes[1..], extra, fallback, req);
        if NoneMatches(routes, req) {
          NoneMatchesTail(routes, req);
        } else {
          var i :| 0 <= i < |routes| && MatchesRequest(routes[i], req);
          assert routes[1..][i - 1] == routes[i];
        }
      }
    }
  }

  /** `HTTPRouter.respond`: the routes in registration order, then the fallback. */
  function Respond(router: Router, req: Request): (r: Reply)
    ensures router.routes == [] ==> r == Invoke(router.fallback, req)
    ensures router.routes != [] && req.path.None? ==> r == Trapped
    ensures req.path.Some? && NoneMatches(router.routes, req) ==> r == Invoke(router.fallback, req)
  {
    if req.path.Some? && NoneMatches(router.routes, req) then
      DispatchNoMatch(router.routes, router.fallback, req);
      Dispatch(router.routes, router.fallback, req)
    else
      Dispatch(router.routes, router.fallback, req)
  }

  // ---------------------------------------------------------------------------
  // The builder

  /** The state of a builder: the base path it was created with, the routes
      registered so far and the fallback. */
  datatype Builder = Builder(basePath: string, routes: seq<Route>, fallback: Handler)

  /** A fresh builder: no routes, and a fallback that answers 404 Not Found. */
  function NewBuilder(basePath: string): (b: Builder)
    ensures b.basePath == basePath && b.routes == []
    ensures forall req :: Invoke(b.fallback, req) == Returned(NotFound)
  {
    Builder(basePath, [], Constant(NotFound))
  }

  /** A registration: append exactly one route, at `basePath + path`; nothing is
      deduplicated and nothing else changes. */
  function Register(b: Builder, methods: set<Method>, path: string, h: Handler): (r: Builder)
    ensures r.basePath == b.basePath && r.fallback == b.fallback
    ensures |r.routes| == |b.routes| + 1 && r.routes[..|b.routes|] == b.routes
    ensures r.routes[|b.routes|].path == b.basePath + path
    ensures r.routes[|b.routes|].methods == methods && r.routes[|b.routes|].handler == h
  {
    var r := b.(routes := b.routes + [Route(b.basePath + path, methods, h)]);
    assert r.routes[..|b.routes|] == b.routes;
    r
  }

  /** `r` is `b` with one more route, `route`, after all of its own. */
  predicate Appends(b: Builder, r: Builder, route: Route) {
    r.basePath == b.basePath && r.fallback == b.fallback && r.routes == b.routes + [route]
  }

  /** A registration is exactly the append of its route. */
  lemma RegisterAppends(b: Builder, methods: set<Method>, path: string, h: Handler)
    ensures Appends(b, Register(b, methods, path, h), Route(b.basePath + path, methods, h))
  {
    var r := Register(b, methods, path, h);
    assert r.routes == r.routes[..|b.routes|] + [r.routes[|b.routes|]];
  }

  /** `get`, `post`, `put`, `patch` and `delete`: one route for the one method. */
  function Get(b: Builder, path: string, h: Handler): (r: Builder)
    ensures Appends(b, r, Route(b.basePath + path, {GET}, h))
  {
    RegisterAppends(b, {GET}, path, h);
    Register(b, {GET}, path, h)
  }

  function Post(b: Builder, path: string, h: Handler): (r: Builder)
    ensures Appends(b, r, Route(b.basePath + path, {POST}, h))
  {
    RegisterAppends(b, {POST}, path, h);
    Register(b, {POST}, path, h)
  }

  function Put(b: Builder, path: string, h: Handler): (r: Builder)
    ensures Appends(b, r, Route(b.basePath + path, {PUT}, h))
  {
    RegisterAppends(b, {PUT}, path, h);
    Register(b, {PUT}, path, h)
  }

  function Patch(b: Builder, path: string, h: Handler): (r: Builder)
    ensures Appends(b, r, Route(b.basePath + path, {PATCH}, h))
  {
    RegisterAppends(b, {PATCH}, path, h);
    Register(b, {PATCH}, path, h)
  }

  function Delete(b: Builder, path: string, h: Handler): (r: Builder)
    ensures Appends(b, r, Route(b.basePath + path, {DELETE}, h))
  {
    RegisterAppends(b, {DELETE}, path, h);
    Register(b, {DELETE}, path, h)
  }

  /** `any`: one route answering GET, POST, PUT, PATCH and DELETE, and no other
      method. */
  function Any(b: Builder, path: string, h: Handler): (r: Builder)
    ensures Appends(b, r, Route(b.basePath + path, {GET, POST, PUT, PATCH, DELETE}, h))
    ensures HEAD !in r.routes[|b.routes|].methods && OPTIONS !in r.routes[|b.routes|].methods
  {
    RegisterAppends(b, CommonMethods, path, h);
    Register(b, CommonMethods, path, h)
  }

  /** `fallback(_:)`: replace the fallback. */
  function SetFallback(b: Builder, h: Handler): (r: Builder)
    ensures r.routes == b.routes && r.basePath == b.basePath && r.fallback == h
  {
    b.(fallback := h)
  }

  /** The routes of a group, re-created under the outer base path. */
  function Reprefix(basePath: string, routes: seq<Route>): (r: seq<Route>)
    ensures |r| == |routes|
    ensures forall i | 0 <= i < |routes| ::
      r[i] == Route(basePath + routes[i].path, routes[i].methods, routes[i].handler)
  {
    seq(|routes|, i requires 0 <= i < |routes| => Route(basePath + routes[i].path, routes[i].methods, routes[i].handler))
  }

  /** `group` as written: run `build` on a fresh builder at the group's base path
      and then REPLACE the route table with its routes, re-prefixed with the
      outer base path. The group's fallback is dropped. */
  function GroupAsWritten(b: Builder, groupPath: string, build: Builder -> Builder): (r: Builder)
    ensures r.basePath == b.basePath && r.fallback == b.fallback
    ensures r.routes == Reprefix(b.basePath, build(NewBuilder(groupPath)).routes)
  {
    b.(routes := Reprefix(b.basePath, build(NewBuilder(groupPath)).routes))
  }

  /** `group` as evidently intended: the group's routes, re-prefixed, are
      appended to the routes already registered. */
  function Group(b: Builder, groupPath: string, build: Builder -> Builder): (r: Builder)
    ensures r.basePath == b.basePath && r.fallback == b.fallback
    ensures |r.routes| == |b.routes| + |build(NewBuilder(groupPath)).routes|
    ensures r.routes[..|b.routes|] == b.routes
    ensures r.routes[|b.routes|..] == Reprefix(b.basePath, build(NewBuilder(groupPath)).routes)
  {
    var r := b.(routes := b.routes + Reprefix(b.basePath, build(NewBuilder(groupPath)).routes));
    assert r.routes[..|b.routes|] == b.routes;
    r
  }

  /** As written, a group forgets the routes registered before it: a request that
      none of the group's routes matches goes to the fallback, whatever the
      earlier routes would have answered. */
  lemma GroupAsWrittenForgets(b: Builder, groupPath: string, build: Builder -> Builder, req: Request)
    requires req.path.Some? && NoneMatches(Reprefix(b.basePath, build(NewBuilder(groupPath)).routes), req)
    ensures Dispatch(GroupAsWritten(b, groupPath, build).routes, b.fallback, req) == Invoke(b.fallback, req)
  {
    DispatchNoMatch(GroupAsWritten(b, groupPath, build).routes, b.fallback, req);
  }

  /** With appending, a group changes nothing for requests an earlier route
      matches, and the group's routes answer the others. */
  lemma GroupKeepsEarlierRoutes(b: Builder, groupPath: string, build: Builder -> Builder, req: Request)
    requires req.path.Some?
    ensures !NoneMatches(b.routes, req) ==>
      Dispatch(Group(b, groupPath, build).routes, b.fallback, req) == Dispatch(b.routes, b.fallback, req)
    ensures NoneMatches(b.routes, req) ==>
      Dispatch(Group(b, groupPath, build).routes, b.fallback, req) ==
      Dispatch(Reprefix(b.basePath, build(NewBuilder(groupPath)).routes), b.fallback, req)
  {
    var extra := Reprefix(b.basePath, build(NewBuilder(groupPath)).routes);
    var r := Group(b, groupPath, build);
    assert r.routes == b.routes + extra;
    DispatchAppend(b.routes, extra, b.fallback, req);
  }

  /** `HTTPRouter.init`: run `build` on a fresh builder at `basePath` and take its
      routes and fallback. */
  function NewRouter(basePath: string, build: Builder -> Builder): (r: Router)
    ensures r.routes == build(NewBuilder(basePath)).routes
    ensures r.fallback == build(NewBuilder(basePath)).fallback
  {
    var b := build(NewBuilder(basePath));
    Router(b.routes, b.fallback)
  }

  /** Registering a second route with the same path and methods adds a route
      that is never reached: every request it would answer the first one answers. */
  lemma RepeatedRouteShadowed(b: Builder, methods: set<Method>, path: string, h1: Handler, h2: Handler, req: Request)
    requires req.path.Some?
    ensures var once := Register(b, methods, path, h1);
      Dispatch(Register(once, methods, path, h2).routes, b.fallback, req) == Dispatch(once.routes, b.fallback, req)
  {
    var once := Register(b, methods, path, h1);
    var twice := Register(once, methods, path, h2);
    assert twice.routes == once.routes + [twice.routes[|once.routes|]];
    DispatchAppend(once.routes, [twice.routes[|once.routes|]], b.fallback, req);
    if NoneMatches(once.routes, req) {
      assert !MatchesRequest(once.routes[|b.routes|], req);
      DispatchNoMatch([twice.routes[|once.routes|]], b.fallback, req);
      DispatchNoMatch(once.routes, b.fallback, req);
    }
  }

  /** A router whose builder kept the default fallback answers every request that
      no route matches with 404 Not Found. */
  lemma DefaultFallbackNotFound(basePath: string, build: Builder -> Builder, req: Request)
    requires build(NewBuilder(basePath)).fallback == NewBuilder(basePath).fallback
    requires req.path.Some? && NoneMatches(build(NewBuilder(basePath)).routes, req)
    ensures Respond(NewRouter(basePath, build), req) == Returned(NotFound)
  {
    DispatchNoMatch(build(NewBuilder(basePath)).routes, NewBuilder(basePath).fallback, req);
  }
}
