/** The REST sugar of the regex-pattern builder: `resources` registers the
    six routes of a collection (index, create, and show/update/update/destroy
    on `/:id`), `resource` the five routes of a singleton. The `HTTPRouter`
    version collects the handlers in a resource builder whose unset handlers
    answer 405; the `Spell` version takes them from a resource value. */
module Resources {
  import opened Options
  import opened Http
  import opened PatternRouter
  import opened RoutePattern

  /** The handlers a resource builder holds. */
  datatype ResourceBuilder = ResourceBuilder(index: Handler, create: Handler, show: Handler, update: Handler, destroy: Handler)

  /** A fresh resource builder: every handler answers 405 Method Not Allowed. */
  function NewResourceBuilder(): (rb: ResourceBuilder)
    ensures forall req :: Invoke(rb.index, req) == Returned(MethodNotAllowed)
    ensures forall req :: Invoke(rb.create, req) == Returned(MethodNotAllowed)
    ensures forall req :: Invoke(rb.show, req) == Returned(MethodNotAllowed)
    ensures forall req :: Invoke(rb.update, req) == Returned(MethodNotAllowed)
    ensures forall req :: Invoke(rb.destroy, req) == Returned(MethodNotAllowed)
  {
    var h := Constant(MethodNotAllowed);
    ResourceBuilder(h, h, h, h, h)
  }

  /** `index(_:)` and `create(_:)` store the given handler; the other handlers
      stay. */
  function SetIndex(rb: ResourceBuilder, h: Handler): (r: ResourceBuilder)
    ensures forall req :: Invoke(r.index, req) == Invoke(h, req)
    ensures r.create == rb.create && r.show == rb.show && r.update == rb.update && r.destroy == rb.destroy
  {
    rb.(index := h)
  }

  function SetCreate(rb: ResourceBuilder, h: Handler): (r: ResourceBuilder)
    ensures forall req :: Invoke(r.create, req) == Invoke(h, req)
    ensures r.index == rb.index && r.show == rb.show && r.update == rb.update && r.destroy == rb.destroy
  {
    rb.(create := h)
  }

  /** `show(_:)`, `update(_:)` and `destroy(_:)` wrap caller code that takes the
      request and its `id` parameter, force-unwrapped; the other handlers stay. */
  function SetShow(rb: ResourceBuilder, id: nat): (r: ResourceBuilder)
    ensures forall req: Request | "id" in req.parameters :: Invoke(r.show, req) == CalledWithId(id, req, req.parameters["id"])
    ensures forall req: Request | "id" !in req.parameters :: Invoke(r.show, req) == Trapped
    ensures r.index == rb.index && r.create == rb.create && r.update == rb.update && r.destroy == rb.destroy
  {
    rb.(show := WithId(id))
  }

  function SetUpdate(rb: ResourceBuilder, id: nat): (r: ResourceBuilder)
    ensures forall req: Request | "id" in req.parameters :: Invoke(r.update, req) == CalledWithId(id, req, req.parameters["id"])
    ensures forall req: Request | "id" !in req.parameters :: Invoke(r.update, req) == Trapped
    ensures r.index == rb.index && r.create == rb.create && r.show == rb.show && r.destroy == rb.destroy
  {
    rb.(update := WithId(id))
  }

  function SetDestroy(rb: ResourceBuilder, id: nat): (r: ResourceBuilder)
    ensures forall req: Request | "id" in req.parameters :: Invoke(r.destroy, req) == CalledWithId(id, req, req.parameters["id"])
    ensures forall req: Request | "id" !in req.parameters :: Invoke(r.destroy, req) == Trapped
    ensures r.index == rb.index && r.create == rb.create && r.show == rb.show && r.update == rb.update
  {
    rb.(destroy := WithId(id))
  }

  /** A handler set by `show`, `update` or `destroy` passes the request's `id`
      parameter to the caller's code, and traps when there is none. */
  lemma IdHandlerReceivesId(rb: ResourceBuilder, id: nat, req: Request)
    ensures var hs := [SetShow(rb, id).show, SetUpdate(rb, id).update, SetDestroy(rb, id).destroy];
      forall i | 0 <= i < 3 ::
        && ("id" in req.parameters ==> Invoke(hs[i], req) == CalledWithId(id, req, req.parameters["id"]))
        && ("id" !in req.parameters ==> Invoke(hs[i], req) == Trapped)
  {
  }

  /** The `/:id` suffix of the collection routes. */
  const IdSuffix: string := "/:id"

  /** `resources(path, build)`: run `build` on a fresh resource builder, then
      register, in this order, GET and POST on `path` and GET, PUT, PATCH and
      DELETE on `path + "/:id"`. */
  function AddResources(b: Builder, path: string, build: ResourceBuilder -> ResourceBuilder): (r: Builder)
    ensures r.basePath == b.basePath && r.fallback == b.fallback
    ensures |r.routes| == |b.routes| + 6 && r.routes[..|b.routes|] == b.routes
    ensures r.routes[|b.routes|..] == ResourceRoutes(b.basePath, path, build(NewResourceBuilder()))
  {
    var rb := build(NewResourceBuilder());
    var b1 := Get(b, path, rb.index);
    var b2 := Post(b1, path, rb.create);
    var b3 := Get(b2, path + IdSuffix, rb.show);
    var b4 := Put(b3, path + IdSuffix, rb.update);
    var b5 := Patch(b4, path + IdSuffix, rb.update);
    var r := Delete(b5, path + IdSuffix, rb.destroy);
    AppendEach(b.routes, ResourceRoutes(b.basePath, path, rb));
    assert r.routes[..|b.routes|] == b.routes;
    r
  }

  /** Appending six routes one at a time appends the six. */
  lemma AppendEach<T>(s: seq<T>, xs: seq<T>)
    requires |xs| == 6
    ensures s + [xs[0]] + [xs[1]] + [xs[2]] + [xs[3]] + [xs[4]] + [xs[5]] == s + xs
  {
    assert xs == [xs[0], xs[1], xs[2], xs[3], xs[4], xs[5]];
  }

  /** The six routes of a collection at `basePath + path`. */
  function ResourceRoutes(basePath: string, path: string, rb: ResourceBuilder): seq<Route> {
    var p, q := basePath + path, basePath + (path + IdSuffix);
    [Route(p, {GET}, rb.index), Route(p, {POST}, rb.create), Route(q, {GET}, rb.show),
     Route(q, {PUT}, rb.update), Route(q, {PATCH}, rb.update), Route(q, {DELETE}, rb.destroy)]
  }

  /** A GET on the collection path reaches `index`: it is the first route. */
  lemma ResourcesIndexAnswersGet(basePath: string, path: string, rb: ResourceBuilder, fallback: Handler, req: Request)
    requires req.path.Some? && req.verb == GET
    requires Match(Compile(basePath + path), req.path.value).Some?
    ensures Dispatch(ResourceRoutes(basePath, path, rb), fallback, req) == RouteRespond(Route(basePath + path, {GET}, rb.index), req)
  {
    var routes := ResourceRoutes(basePath, path, rb);
    assert FirstMatch(routes, req, 0);
    DispatchFirstMatch(routes, fallback, req, 0);
  }

  /** A GET on a path that the collection pattern does not match but the `/:id`
      pattern does reaches `show`, past `index` and `create`. */
  lemma ResourcesShowAnswersGet(basePath: string, path: string, rb: ResourceBuilder, fallback: Handler, req: Request)
    requires req.path.Some? && req.verb == GET
    requires Match(Compile(basePath + path), req.path.value).None?
    requires Match(Compile(basePath + (path + IdSuffix)), req.path.value).Some?
    ensures Dispatch(ResourceRoutes(basePath, path, rb), fallback, req) == RouteRespond(Route(basePath + (path + IdSuffix), {GET}, rb.show), req)
  {
    var routes := ResourceRoutes(basePath, path, rb);
    var show := Route(basePath + (path + IdSuffix), {GET}, rb.show);
    assert routes[2] == show;
    assert !PathMatches(routes[0], req.path.value) && routes[1].methods == {POST};
    ThirdRouteAnswers(routes, fallback, req);
  }

  /** When the first two routes miss and the third matches, the third answers. */
  lemma ThirdRouteAnswers(routes: seq<Route>, fallback: Handler, req: Request)
    requires req.path.Some? && |routes| > 2
    requires !MatchesRequest(routes[0], req) && !MatchesRequest(routes[1], req) && MatchesRequest(routes[2], req)
    ensures Dispatch(routes, fallback, req) == RouteRespond(routes[2], req)
  {
    assert routes[..2] == [routes[0], routes[1]];
    assert FirstMatch(routes, req, 2);
    DispatchFirstMatch(routes, fallback, req, 2);
  }

  /** A request that neither pattern of a collection matches falls through all
      six routes. */
  lemma ResourcesMiss(basePath: string, path: string, rb: ResourceBuilder, req: Request)
    requires req.path.Some?
    requires Match(Compile(basePath + path), req.path.value).None?
    requires Match(Compile(basePath + (path + IdSuffix)), req.path.value).None?
    ensures NoneMatches(ResourceRoutes(basePath, path, rb), req)
  {
  }

  /** The collection routes of a literal path: the collection path matches only
      itself, and the `/:id` path binds `id`. */
  lemma ResourcePaths(p: string)
    requires ':' !in p
    ensures Compile(p + IdSuffix) == Lits(p + "/") + [Param("id")]
    ensures Keys(p + IdSuffix) == ["id"]
  {
    assert p + IdSuffix == (p + "/") + ([':'] + "id");
    LiteralThenParam(p + "/", "id");
  }

  /** `resource(path, build)`: GET, POST, PUT, PATCH and DELETE, all on `path`. */
  function AddResource(b: Builder, path: string, build: ResourceBuilder -> ResourceBuilder): (r: Builder)
    ensures r.basePath == b.basePath && r.fallback == b.fallback
    ensures |r.routes| == |b.routes| + 5 && r.routes[..|b.routes|] == b.routes
    ensures r.routes[|b.routes|..] == SingletonRoutes(b.basePath + path, build(NewResourceBuilder()))
  {
    var rb := build(NewResourceBuilder());
    var r := Delete(Patch(Put(Post(Get(b, path, rb.index), path, rb.create), path, rb.update), path, rb.update), path, rb.destroy);
    assert r.routes == b.routes + SingletonRoutes(b.basePath + path, rb);
    assert r.routes[..|b.routes|] == b.routes;
    r
  }

  /** The five routes of a singleton resource at `p`. */
  function SingletonRoutes(p: string, rb: ResourceBuilder): seq<Route> {
    [Route(p, {GET}, rb.index), Route(p, {POST}, rb.create), Route(p, {PUT}, rb.update),
     Route(p, {PATCH}, rb.update), Route(p, {DELETE}, rb.destroy)]
  }

  // ---------------------------------------------------------------------------
  // The `Spell` version: handlers come from a resource value

  /** `resources(path, resources:)` as written: every registration is handed
      `basePath + path`, and the registration prefixes `basePath` again. */
  function SpellResourcesAsWritten(b: Builder, path: string, rb: ResourceBuilder): (r: Builder)
    ensures r.basePath == b.basePath && r.fallback == b.fallback
    ensures |r.routes| == |b.routes| + 6 && r.routes[..|b.routes|] == b.routes
    ensures r.routes[|b.routes|..] == ResourceRoutes(b.basePath, b.basePath + path, rb)
  {
    var p := b.basePath + path;
    var r := Delete(Patch(Put(Get(Post(Get(b, p, rb.index), p, rb.create), p + IdSuffix, rb.show),
      p + IdSuffix, rb.update), p + IdSuffix, rb.update), p + IdSuffix, rb.destroy);
    assert r.routes == b.routes + ResourceRoutes(b.basePath, p, rb);
    assert r.routes[..|b.routes|] == b.routes;
    r
  }

  /** The doubled prefix loses every request for `basePath + path` under a
      non-empty literal base path: both patterns are longer than the request
      path, so none of the six routes matches it. */
  lemma SpellResourcesAsWrittenMisses(b: Builder, path: string, rb: ResourceBuilder, req: Request)
    requires b.basePath != [] && ':' !in b.basePath && ':' !in path
    requires req.path == Some(b.basePath + path)
    ensures NoneMatches(SpellResourcesAsWritten(b, path, rb).routes[|b.routes|..], req)
  {
    var bp, s := b.basePath, b.basePath + path;
    var p := bp + s;
    LiteralPathMatchesItself(p, s);
    ResourcePaths(p);
    assert bp + (s + IdSuffix) == p + IdSuffix;
    MatchLiterals(p + "/", [Param("id")], s);
    ResourcesMiss(bp, s, rb, req);
  }

  /** With the prefix applied once, a GET for `basePath + path` reaches the
      `index` handler. */
  lemma SpellResourcesReachIndex(b: Builder, path: string, rb: ResourceBuilder, req: Request)
    requires ':' !in b.basePath + path
    requires req.path == Some(b.basePath + path) && req.verb == GET
    ensures Dispatch(SpellResources(b, path, rb).routes[|b.routes|..], b.fallback, req) ==
      RouteRespond(Route(b.basePath + path, {GET}, rb.index), req)
  {
    LiteralPathMatchesItself(b.basePath + path, b.basePath + path);
    ResourcesIndexAnswersGet(b.basePath, path, rb, b.fallback, req);
  }

  /** `resource(path, resources:)` as written, with the same doubled prefix. */
  function SpellResourceAsWritten(b: Builder, path: string, rb: ResourceBuilder): (r: Builder)
    ensures r.basePath == b.basePath && r.fallback == b.fallback
    ensures |r.routes| == |b.routes| + 5 && r.routes[..|b.routes|] == b.routes
    ensures r.routes[|b.routes|..] == SingletonRoutes(b.basePath + (b.basePath + path), rb)
  {
    var p := b.basePath + path;
    var r := Delete(Patch(Put(Post(Get(b, p, rb.index), p, rb.create), p, rb.update), p, rb.update), p, rb.destroy);
    assert r.routes == b.routes + SingletonRoutes(b.basePath + p, rb);
    assert r.routes[..|b.routes|] == b.routes;
    r
  }

  /** `resources(path, resources:)` as evidently intended: the routes live at
      `basePath + path`, like those of every other registration. */
  function SpellResources(b: Builder, path: string, rb: ResourceBuilder): (r: Builder)
    ensures r.basePath == b.basePath && r.fallback == b.fallback
    ensures |r.routes| == |b.routes| + 6 && r.routes[..|b.routes|] == b.routes
    ensures r.routes[|b.routes|..] == ResourceRoutes(b.basePath, path, rb)
  {
    AddResources(b, path, _ => rb)
  }

  /** `resource(path, resources:)` as evidently intended. */
  function SpellResource(b: Builder, path: string, rb: ResourceBuilder): (r: Builder)
    ensures r.basePath == b.basePath && r.fallback == b.fallback
    ensures |r.routes| == |b.routes| + 5 && r.routes[..|b.routes|] == b.routes
    ensures r.routes[|b.routes|..] == SingletonRoutes(b.basePath + path, rb)
  {
    AddResource(b, path, _ => rb)
  }
}
