/** What the two middleware-based routers share: a route matcher built from
    the route table, and the choice between the matched route and the
    fallback. The matcher is a strategy outside the router (a trie or a regex
    matcher); it is modelled as a function of its kind, the routes it was
    built from and the request. */
module RouterDispatch {
  import opened Options
  import opened Http
  import opened RouteTable

  /** The matcher types the routers can be built with. */
  datatype MatcherKind = TrieMatcher | RegexMatcher

  /** A matcher strategy: the route it picks for a request, if any. */
  type Matcher = (MatcherKind, seq<Route>, Request) -> Option<Route>

  /** `matcher.init(routes:)`: a matcher of a kind, built over a route table. */
  datatype MatcherState = MatcherState(kind: MatcherKind, routes: seq<Route>)

  /** What a router hands the request to. */
  datatype Target = MatchedRoute(route: Route) | Fallback(responder: Responder)

  /** How the router middleware is applied around the target. */
  datatype Wrapping = ChainTo | Intercept

  /** The router's answer: the request, handed once through the router
      middleware to the target. */
  datatype Dispatch = Dispatch(wrapping: Wrapping, middleware: seq<nat>, target: Target, request: Request)

  /** `matcher.match(request)`: the strategy of the matcher's kind, over the routes
      the matcher was built from. */
  function MatchWith(select: Matcher, m: MatcherState, req: Request): Option<Route> {
    select(m.kind, m.routes, req)
  }

  /** `match(request) ?? fallback`. */
  function Pick(select: Matcher, m: MatcherState, fallback: Responder, req: Request): (t: Target)
    ensures t.MatchedRoute? <==> MatchWith(select, m, req).Some?
    ensures t.MatchedRoute? ==> t.route == MatchWith(select, m, req).value
    ensures t.Fallback? ==> t.responder == fallback
  {
    match MatchWith(select, m, req)
    case Some(route) => MatchedRoute(route)
    case None => Fallback(fallback)
  }

  /** A matcher that only ever picks routes of the table it was built from. */
  predicate PicksFromTable(select: Matcher, m: MatcherState, req: Request) {
    MatchWith(select, m, req).Some? ==> MatchWith(select, m, req).value in m.routes
  }
}
