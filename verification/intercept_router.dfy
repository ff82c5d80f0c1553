/** `Router`, the router of the same package built directly by its
    initializer: it takes the builder's routes and fallback, builds its matcher
    over those routes, and answers a request by letting the router middleware
    intercept the matched route or the fallback, once. */
module InterceptRouter {
  import opened Options
  import opened Http
  import opened RouteTable
  import opened RouterDispatch
  import BasicRouter

  datatype RouterState = RouterState(middleware: seq<nat>, routes: seq<Route>, fallback: Responder, matcher: MatcherState)

  /** A router as it can be built: its matcher is built over exactly its routes. */
  type Router = r: RouterState | r.matcher.routes == r.routes
    witness RouterState([], [], Status(NotFoundStatus), MatcherState(TrieMatcher, []))

  /** `init(_:middleware:matcher:build:)`: run `build` on a fresh builder at
      `path` (the empty path by default) and keep its routes, its fallback and a
      matcher (the trie matcher by default) over exactly those routes. */
  function New(build: Builder -> Builder, path: string := "", middleware: seq<nat> := [], kind: MatcherKind := TrieMatcher): (r: Router)
    ensures r.routes == build(NewBuilder(path)).routes && r.fallback == build(NewBuilder(path)).fallback
    ensures r.middleware == middleware && r.matcher == MatcherState(kind, r.routes)
  {
    var b := build(NewBuilder(path));
    RouterState(middleware, b.routes, b.fallback, MatcherState(kind, b.routes))
  }

  /** `match(request:)`: the matcher's answer. */
  function Match(r: Router, select: Matcher, req: Request): Option<Route> {
    MatchWith(select, r.matcher, req)
  }

  /** `respond(request:)`: the matched route, or the fallback when there is
      none, intercepted once by the router middleware. */
  function Respond(r: Router, select: Matcher, req: Request): (d: Dispatch)
    ensures d.wrapping == Intercept && d.middleware == r.middleware && d.request == req
    ensures Match(r, select, req).Some? ==> d.target == MatchedRoute(Match(r, select, req).value)
    ensures Match(r, select, req).None? ==> d.target == Fallback(r.fallback)
  {
    Dispatch(Intercept, r.middleware, Pick(select, r.matcher, r.fallback, req), req)
  }

  /** Built from the same build, path, matcher and middleware, this router and
      `BasicRouter` hand every request to the same target through the same
      middleware; they differ only in how the middleware is applied. */
  lemma AgreesWithBasicRouter(build: Builder -> Builder, path: string, kind: MatcherKind, middleware: seq<nat>, select: Matcher, req: Request)
    ensures var d := Respond(New(build, path, middleware, kind), select, req);
      var e := BasicRouter.Respond(BasicRouter.New(build, path, kind, middleware), select, req);
      d.target == e.target && d.middleware == e.middleware && d.request == e.request
  {
  }
}
