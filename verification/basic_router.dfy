/** `BasicRouter`: a router built from a route-table builder. It keeps the
    builder's routes and fallback, builds its matcher over those routes, and
    answers a request through the router middleware, chained once to the
    matched route or to the fallback. */
module BasicRouter {
  import opened Options
  import opened Http
  import opened RouteTable
  import opened RouterDispatch

  datatype RouterState = RouterState(middleware: seq<nat>, matcher: MatcherState, routes: seq<Route>, fallback: Responder)

  /** A router as it can be built: its matcher is built over exactly its routes. */
  type Router = r: RouterState | r.matcher.routes == r.routes
    witness RouterState([], MatcherState(TrieMatcher, []), [], Status(NotFoundStatus))

  /** The internal `init(middleware:matcher:router:)`: take the builder's routes
      and fallback and build the matcher over exactly those routes. */
  function FromBuilder(middleware: seq<nat>, kind: MatcherKind, b: Builder): (r: Router)
    ensures r.routes == b.routes && r.fallback == b.fallback && r.middleware == middleware
    ensures r.matcher.kind == kind && r.matcher.routes == r.routes
  {
    RouterState(middleware, MatcherState(kind, b.routes), b.routes, b.fallback)
  }

  /** The public `init(path:matcher:middleware:build:)`: run `build` on a fresh
      builder at `path`. The path defaults to the empty one, the matcher to the
      trie matcher and the middleware to none. */
  function New(build: Builder -> Builder, path: string := "", kind: MatcherKind := TrieMatcher, middleware: seq<nat> := []): (r: Router)
    ensures r.routes == build(NewBuilder(path)).routes && r.fallback == build(NewBuilder(path)).fallback
    ensures r.middleware == middleware && r.matcher == MatcherState(kind, r.routes)
  {
    FromBuilder(middleware, kind, build(NewBuilder(path)))
  }

  /** `match(_:)`: the matcher's answer. */
  function Match(r: Router, select: Matcher, req: Request): Option<Route> {
    MatchWith(select, r.matcher, req)
  }

  /** `respond(to:)`: the matched route, or the fallback when there is none,
      with the router middleware chained to it once. */
  function Respond(r: Router, select: Matcher, req: Request): (d: Dispatch)
    ensures d.wrapping == ChainTo && d.middleware == r.middleware && d.request == req
    ensures Match(r, select, req).Some? ==> d.target == MatchedRoute(Match(r, select, req).value)
    ensures Match(r, select, req).None? ==> d.target == Fallback(r.fallback)
  {
    Dispatch(ChainTo, r.middleware, Pick(select, r.matcher, r.fallback, req), req)
  }

  /** The matcher of a built router sees exactly the routes the build registered,
      so a request is matched as the builder's table would be. */
  lemma NewMatchesBuilderRoutes(build: Builder -> Builder, path: string, kind: MatcherKind, middleware: seq<nat>, select: Matcher, req: Request)
    ensures Match(New(build, path, kind, middleware), select, req) == select(kind, build(NewBuilder(path)).routes, req)
  {
  }

  /** With the defaults, a build that leaves the fallback alone answers an
      unmatched request with 404, with no middleware in between. */
  lemma DefaultUnmatchedNotFound(build: Builder -> Builder, select: Matcher, req: Request)
    requires build(NewBuilder("")).fallback == NewBuilder("").fallback
    requires select(TrieMatcher, build(NewBuilder("")).routes, req).None?
    ensures var d := Respond(New(build), select, req);
      d.middleware == [] && d.target.Fallback? && Run(d.target.responder, req) == Answered(NotFoundStatus)
  {
  }

  /** A matched route is one the build registered, when the matcher picks from
      its table. */
  lemma MatchedRouteRegistered(build: Builder -> Builder, path: string, kind: MatcherKind, middleware: seq<nat>, select: Matcher, req: Request)
    requires PicksFromTable(select, MatcherState(kind, build(NewBuilder(path)).routes), req)
    ensures var d := Respond(New(build, path, kind, middleware), select, req);
      d.target.MatchedRoute? ==> d.target.route in build(NewBuilder(path)).routes
  {
  }
}
