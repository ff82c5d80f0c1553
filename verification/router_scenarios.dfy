/** Concrete routing scenarios for each copy of the regex-pattern router,
    worked through the shared model: which route answers, which parameters it
    binds, and what the quirks of each copy do to a request. */
module RouterScenarios {
  import opened Options
  import opened Http
  import opened RoutePattern
  import opened PatternRouter
  import opened Resources

  // ---------------------------------------------------------------------------
  // Readings of the paths used below

  lemma UsersIdPattern()
    ensures Compile("/users/:id") == Lits("/users/") + [Param("id")]
    ensures Keys("/users/:id") == ["id"]
  {
    assert "/users/:id" == "/users" + IdSuffix;
    ResourcePaths("/users");
    assert "/users" + "/" == "/users/";
  }

  /** `/users` does not match `/users/42`. */
  lemma UsersMissesUsersId()
    ensures Match(Compile("/users"), "/users/42").None?
  {
    LiteralPathMatchesItself("/users", "/users/42");
  }

  /** A lone `:id` pattern captures `42`. */
  lemma IdCaptures42()
    ensures Match([Param("id")], "42") == Some(["42"])
  {
    assert Match([], "") == Some([]);
    MatchParam("id", [], "42", "");
    assert [Param("id")] + [] == [Param("id")] && "42" + "" == "42";
    assert ["42"] + [] == ["42"];
  }

  /** `/users/:id` matches `/users/42`, capturing `42`. */
  lemma UsersIdMatches()
    ensures Match(Compile("/users/:id"), "/users/42") == Some(["42"])
  {
    UsersIdPattern();
    var lit, s := "/users/", "/users/42";
    assert lit <= s && s[|lit|..] == "42";
    MatchLiterals(lit, [Param("id")], s);
    IdCaptures42();
  }

  // ---------------------------------------------------------------------------
  // HTTPRouter/HTTPRouter.swift

  /** Binding one key to one value. */
  lemma BindOne(params: map<string, string>, k: string, v: string)
    ensures Bind(params, [k], [v]) == params[k := v]
  {
    assert [k][1..] == [] && [v][1..] == [];
  }

  /** The show route of `/users` binds `id` to `42` for `/users/42`. */
  lemma ShowBindsId(h: Handler, req: Request)
    requires req == Request(GET, Some("/users/42"), map[])
    ensures PathMatches(Route("/users/:id", {GET}, h), "/users/42")
    ensures BoundRequest(Route("/users/:id", {GET}, h), req) == req.(parameters := map["id" := "42"])
  {
    UsersIdMatches();
    UsersIdPattern();
    BindOne(map[], "id", "42");
  }

  /** With `resources("/users")` and only `show` set, `GET /users/42` skips the two
      collection routes, reaches the show route, binds `id` to `42` and passes it
      to the show handler. */
  lemma ResourcesShowGetsId()
    ensures var router := NewRouter("", b => AddResources(b, "/users", rb => SetShow(rb, 7)));
      var req := Request(GET, Some("/users/42"), map[]);
      Respond(router, req) == CalledWithId(7, req.(parameters := map["id" := "42"]), "42")
  {
    var router := NewRouter("", b => AddResources(b, "/users", rb => SetShow(rb, 7)));
    var req := Request(GET, Some("/users/42"), map[]);
    var rb := SetShow(NewResourceBuilder(), 7);
    assert router.routes == ResourceRoutes("", "/users", rb) by {
      var b := AddResources(NewBuilder(""), "/users", rb => SetShow(rb, 7));
      assert b.routes[0..] == b.routes;
    }
    assert "" + "/users" == "/users" && "" + ("/users" + IdSuffix) == "/users/:id";
    UsersMissesUsersId();
    UsersIdMatches();
    ResourcesShowAnswersGet("", "/users", rb, router.fallback, req);
    var show := Route("/users/:id", {GET}, WithId(7));
    ShowBindsId(WithId(7), req);
    assert RouteRespond(show, req) == Invoke(WithId(7), BoundRequest(show, req));
  }

  // ---------------------------------------------------------------------------
  // Spell/HTTPRouter.swift

  /** As written, `resources("/users")` under base path `/api` registers
      `/api/api/users` and `/api/api/users/:id`, so `GET /api/users` falls through
      to the 404 fallback. */
  lemma SpellResourcesMissAsWritten()
    ensures var b := SpellResourcesAsWritten(NewBuilder("/api"), "/users", SetIndex(NewResourceBuilder(), Closure(3)));
      Respond(Router(b.routes, b.fallback), Request(GET, Some("/api/users"), map[])) == Returned(NotFound)
  {
    var b0 := NewBuilder("/api");
    var rb := SetIndex(NewResourceBuilder(), Closure(3));
    var b := SpellResourcesAsWritten(b0, "/users", rb);
    var req := Request(GET, Some("/api/users"), map[]);
    ApiUsersLiteral();
    SpellResourcesAsWrittenMisses(b0, "/users", rb, req);
    assert b.routes[|b0.routes|..] == b.routes;
    DispatchNoMatch(b.routes, b.fallback, req);
  }

  /** With the prefix applied once, the same request reaches `index`. */
  lemma SpellResourcesIndex()
    ensures var b := SpellResources(NewBuilder("/api"), "/users", SetIndex(NewResourceBuilder(), Closure(3)));
      var req := Request(GET, Some("/api/users"), map[]);
      Respond(Router(b.routes, b.fallback), req) == Called(3, req)
  {
    var b0 := NewBuilder("/api");
    var rb := SetIndex(NewResourceBuilder(), Closure(3));
    var b := SpellResources(b0, "/users", rb);
    var req := Request(GET, Some("/api/users"), map[]);
    ApiUsersLiteral();
    SpellResourcesReachIndex(b0, "/users", rb, req);
    assert b.routes[|b0.routes|..] == b.routes;
    LiteralRouteKeepsRequest(Route("/api/users", {GET}, Closure(3)), req);
  }

  // ---------------------------------------------------------------------------
  // Sources/HTTPRouter.swift

  /** A builder with `GET /health` registered before a group `/api` holding
      `GET /users`. */
  function HealthThenApi(): Builder {
    Get(NewBuilder(""), "/health", Closure(0))
  }

  /** The group `/api` of that builder. */
  function ApiGroup(g: Builder): Builder {
    Get(g, "/users", Closure(1))
  }

  /** The group's one route, under the empty outer base path. */
  lemma ApiGroupRoutes()
    ensures Reprefix("", ApiGroup(NewBuilder("/api")).routes) == [Route("/api/users", {GET}, Closure(1))]
  {
    assert ApiGroup(NewBuilder("/api")).routes == [Route("/api" + "/users", {GET}, Closure(1))];
    assert "" + ("/api" + "/users") == "/api/users";
  }

  /** As written, the group replaces the table: `GET /health` gets 404. */
  lemma GroupLosesHealthAsWritten()
    ensures var b := GroupAsWritten(HealthThenApi(), "/api", ApiGroup);
      Respond(Router(b.routes, b.fallback), Request(GET, Some("/health"), map[])) == Returned(NotFound)
  {
    var b0 := HealthThenApi();
    var req := Request(GET, Some("/health"), map[]);
    ApiGroupRoutes();
    ApiUsersMissesHealth(Route("/api/users", {GET}, Closure(1)), req);
    GroupAsWrittenForgets(b0, "/api", ApiGroup, req);
    assert b0.fallback == NewBuilder("").fallback;
  }

  /** `/api/users` does not match `GET /health`. */
  lemma ApiUsersMissesHealth(users: Route, req: Request)
    requires users == Route("/api/users", {GET}, Closure(1)) && req == Request(GET, Some("/health"), map[])
    ensures NoneMatches([users], req)
  {
    ApiUsersLiteral();
    LiteralRouteMisses(users, req);
  }

  /** Facts about the literal paths of these scenarios. */
  lemma ApiUsersLiteral()
    ensures ':' !in "/api/users" && "/health" != "/api/users"
    ensures "/api" + "/users" == "/api/users"
  {
    assert "/health"[1] != "/api/users"[1];
  }

  /** With appending, `GET /health` still reaches its handler. */
  lemma GroupKeepsHealth()
    ensures var b := Group(HealthThenApi(), "/api", ApiGroup);
      var req := Request(GET, Some("/health"), map[]);
      Respond(Router(b.routes, b.fallback), req) == Called(0, req)
  {
    var b0 := HealthThenApi();
    var req := Request(GET, Some("/health"), map[]);
    var health := Route("/health", {GET}, Closure(0));
    assert b0.routes == [health] by {
      assert "" + "/health" == "/health";
    }
    LiteralPathMatchesItself("/health", "/health");
    assert FirstMatch(b0.routes, req, 0);
    DispatchFirstMatch(b0.routes, b0.fallback, req, 0);
    LiteralRouteKeepsRequest(health, req);
    GroupKeepsEarlierRoutes(b0, "/api", ApiGroup, req);
  }

  // ---------------------------------------------------------------------------
  // Sources/Router.swift

  /** A parameter route registered before a literal one takes its requests: the
      first match wins, and `name` is bound to `users`. */
  lemma FirstMatchWins()
    ensures var b := Get(Get(NewBuilder(""), "/:name", Closure(0)), "/users", Closure(1));
      var req := Request(GET, Some("/users"), map[]);
      Respond(Router(b.routes, b.fallback), req) == Called(0, req.(parameters := map["name" := "users"]))
  {
    var b := Get(Get(NewBuilder(""), "/:name", Closure(0)), "/users", Closure(1));
    var req := Request(GET, Some("/users"), map[]);
    var named := Route("/:name", {GET}, Closure(0));
    assert b.routes[0] == named by {
      assert "" + "/:name" == "/:name";
    }
    NameCapturesUsers();
    assert FirstMatch(b.routes, req, 0);
    DispatchFirstMatch(b.routes, b.fallback, req, 0);
    BindOne(map[], "name", "users");
    assert BoundRequest(named, req) == req.(parameters := map["name" := "users"]);
  }

  /** `/:name` reads as `/` and the parameter `name`. */
  lemma NamePattern()
    ensures Compile("/:name") == Lits("/") + [Param("name")]
    ensures Keys("/:name") == ["name"]
  {
    assert "/:name" == "/" + ([':'] + "name");
    assert IsAlnumString("name");
    LiteralThenParam("/", "name");
  }

  /** A lone `:name` pattern captures `users`. */
  lemma NameCapturesUsersTail()
    ensures Match([Param("name")], "users") == Some(["users"])
  {
    assert IsAlnumString("users");
    assert Match([], "") == Some([]);
    MatchParam("name", [], "users", "");
    assert [Param("name")] + [] == [Param("name")] && "users" + "" == "users";
    assert ["users"] + [] == ["users"];
  }

  /** `/:name` matches `/users`, capturing `users`. */
  lemma NameCapturesUsers()
    ensures Keys("/:name") == ["name"]
    ensures Match(Compile("/:name"), "/users") == Some(["users"])
  {
    NamePattern();
    MatchLiterals("/", [Param("name")], "/users");
    assert "/" <= "/users" && "/users"[1..] == "users";
    NameCapturesUsersTail();
  }

  /** `any` registers the common methods only: a HEAD request is not among them
      and goes to the fallback. */
  lemma AnyIgnoresHead()
    ensures var b := Any(NewBuilder(""), "/ping", Closure(0));
      Respond(Router(b.routes, b.fallback), Request(HEAD, Some("/ping"), map[])) == Returned(NotFound)
  {
    var b := Any(NewBuilder(""), "/ping", Closure(0));
    var req := Request(HEAD, Some("/ping"), map[]);
    assert !MatchesRequest(b.routes[0], req);
    DispatchNoMatch(b.routes, b.fallback, req);
  }
}
