/** The route-table builder on the situations its tests exercise: two methods
    on one path, two routers mounted at the same path, and nested routers with
    path parameters. */
module RouteTableScenarios {
  import opened Options
  import opened Http
  import opened PathComponents
  import opened RouteTable

  /** GET and POST on `/users` make one route with two actions. */
  lemma TwoMethodsOneRoute()
    ensures var b := Post(Get(NewBuilder(""), "/users", [], Caller(0)), "/users", [], Caller(0));
      |b.routes| == 1 && b.routes[0].actions.Keys == {GET, POST}
  {
    var b1 := Get(NewBuilder(""), "/users", [], Caller(0));
    assert "" + "/users" == "/users";
    assert b1.routes == [Route("/users", map[GET := Chained([], Caller(0))], None)];
    assert RouteFor(b1.routes, "/users") == Some(0);
  }

  // ---------------------------------------------------------------------------
  // Two routers mounted at the same path

  /** A router with one route on `/path` for one method. */
  function OneRoute(m: Method, id: nat): seq<Route> {
    [Route("/path", map[m := Chained([], Caller(id))], None)]
  }

  /** `compose(router:)` of a router with GET on `/path` and then of one with
      POST on `/path`. */
  function SamePathMain(): Builder {
    var b0 := NewBuilder("");
    var b1 := ComposeRoutes(b0, "", OneRoute(GET, 1), ComposeAction(b0, "", [], SubRouter(1, OneRoute(GET, 1))));
    ComposeRoutes(b1, "", OneRoute(POST, 2), ComposeAction(b1, "", [], SubRouter(2, OneRoute(POST, 2))))
  }

  /** Mounting at the empty prefix strips nothing. */
  lemma EmptyPrefixStripsNothing()
    ensures |Split("" + "")| == 0
  {
    assert "" + "" == [];
  }

  /** The main router's `/path` sends GET to the first router and POST to the
      second, each with nothing stripped. */
  lemma SamePathsComposeActions()
    ensures ActionOf(SamePathMain().routes, "/path", GET) == Some(Chained([], Stripping(0, 1)))
    ensures ActionOf(SamePathMain().routes, "/path", POST) == Some(Chained([], Stripping(0, 2)))
  {
    var b0 := NewBuilder("");
    EmptyPrefixStripsNothing();
    var a1 := ComposeAction(b0, "", [], SubRouter(1, OneRoute(GET, 1)));
    var b1 := ComposeRoutes(b0, "", OneRoute(GET, 1), a1);
    var a2 := ComposeAction(b1, "", [], SubRouter(2, OneRoute(POST, 2)));
    assert "" + ("" + "/path") == "/path";
    assert "/path" == "" + ("" + OneRoute(GET, 1)[0].path) && GET in OneRoute(GET, 1)[0].actions;
    assert "/path" == "" + ("" + OneRoute(POST, 2)[0].path) && POST in OneRoute(POST, 2)[0].actions;
    assert !Mounted("", "", OneRoute(POST, 2), "/path", GET);
    ComposeSpec(b0, "", OneRoute(GET, 1), a1, "/path", GET);
    ComposeSpec(b1, "", OneRoute(POST, 2), a2, "/path", GET);
    ComposeSpec(b0, "", OneRoute(GET, 1), a1, "/path", POST);
    ComposeSpec(b1, "", OneRoute(POST, 2), a2, "/path", POST);
  }

  /** A GET for `/path` reaches the first router with its path unchanged. */
  lemma SamePathsGetForwarded()
    ensures var req := Request(GET, Some("/path"), map[]);
      Run(Chained([], Stripping(0, 1)), req) == Forwarded(1, req)
  {
    var req := Request(GET, Some("/path"), map[]);
    assert "/path" == Rejoin(["path"]);
    StripZeroKeepsRejoined(["path"]);
  }

  // ---------------------------------------------------------------------------
  // Nested routers with parameters

  /** The inner router: GET on `/:location/of/zewo`. */
  function Inner(): seq<Route> {
    [Route("/:location/of/zewo", map[GET := Chained([], Caller(0))], None)]
  }

  /** `Router("/:greeting")` composing the inner router at `/:adjective`. */
  function Nested(): Builder {
    var b0 := NewBuilder("/:greeting");
    ComposeRoutes(b0, "/:adjective", Inner(), ComposeAction(b0, "/:adjective", [], SubRouter(5, Inner())))
  }

  /** The mount prefix `/:greeting/:adjective` has two components. */
  lemma NestedPrefixCount()
    ensures |Split("/:greeting" + "/:adjective")| == 2
  {
    NestedPieces();
    TwoComponents(":greeting", ":adjective");
  }

  /** The pieces of the nested-router patterns. */
  lemma NestedPieces()
    ensures IsComponent(":greeting") && IsComponent(":adjective")
    ensures "/" + ":greeting" + ("/" + ":adjective") == "/:greeting" + "/:adjective"
  {
  }

  lemma NestedPattern()
    ensures "/:greeting" + ("/:adjective" + "/:location/of/zewo") == "/:greeting/:adjective/:location/of/zewo"
  {
  }

  /** The composed route holds GET on the full pattern, stripping two components. */
  lemma NestedAction()
    ensures ActionOf(Nested().routes, "/:greeting/:adjective/:location/of/zewo", GET) == Some(Chained([], Stripping(2, 5)))
  {
    var b0 := NewBuilder("/:greeting");
    NestedPrefixCount();
    var a := ComposeAction(b0, "/:adjective", [], SubRouter(5, Inner()));
    var p := "/:greeting/:adjective/:location/of/zewo";
    NestedPattern();
    assert p == "/:greeting" + ("/:adjective" + Inner()[0].path) && GET in Inner()[0].actions;
    ComposeSpec(b0, "/:adjective", Inner(), a, p, GET);
  }

  /** A path of two components splits into them. */
  lemma TwoComponents(a: string, b: string)
    requires IsComponent(a) && IsComponent(b)
    ensures Split("/" + a + ("/" + b)) == [a, b]
  {
    SplitSlashComponent(b, "");
    assert "/" + b + "" == "/" + b;
    SplitSlashComponent(a, "/" + b);
  }

  /** A path of three components splits into them and is their rebuilt form. */
  lemma ThreeComponents(a: string, b: string, c: string)
    requires IsComponent(a) && IsComponent(b) && IsComponent(c)
    ensures Split("/" + a + ("/" + b + ("/" + c))) == [a, b, c]
    ensures Rejoin([a, b, c]) == "/" + a + ("/" + b + ("/" + c))
  {
    var tail := "/" + b + ("/" + c);
    TwoComponents(b, c);
    SplitSlashComponent(a, tail);
    assert [a] + [b, c] == [a, b, c];
    RejoinThree(a, b, c);
  }

  /** Rebuilding three components. */
  lemma RejoinThree(a: string, b: string, c: string)
    ensures Rejoin([a, b, c]) == "/" + a + ("/" + b + ("/" + c))
  {
    assert [a, b, c][1..] == [b, c] && [b, c][1..] == [c];
    assert Join([c]) == c;
    assert Join([b, c]) == b + "/" + c;
    assert Join([a, b, c]) == a + "/" + (b + "/" + c);
  }

  /** The pieces of the request path of the nested-router test. */
  lemma HelloPieces()
    ensures "/" + "hello" + ("/" + "beautiful") == "/hello/beautiful"
    ensures "/" + "world" + ("/" + "of" + ("/" + "zewo")) == "/world/of/zewo"
    ensures "/hello/beautiful" + "/world/of/zewo" == "/hello/beautiful/world/of/zewo"
  {
  }

  lemma HelloNames()
    ensures IsComponent("hello") && IsComponent("beautiful")
    ensures IsComponent("world") && IsComponent("of") && IsComponent("zewo")
  {
  }

  /** Stripping two components off `/hello/beautiful/world/of/zewo`. */
  lemma StripHello(p: string, prefix: string, rest: string)
    requires p == "/hello/beautiful/world/of/zewo" && prefix == "/hello/beautiful" && rest == "/world/of/zewo"
    ensures Strip(p, 2) == rest
  {
    HelloPieces();
    HelloNames();
    TwoComponents("hello", "beautiful");
    ThreeComponents("world", "of", "zewo");
    StripPrefix(prefix, rest);
  }

  /** The request reaches the inner router as `/world/of/zewo`, which its route
      `/:location/of/zewo` is written for. */
  lemma NestedRequestStripped()
    ensures var req := Request(GET, Some("/hello/beautiful/world/of/zewo"), map[]);
      Run(Chained([], Stripping(2, 5)), req) == Forwarded(5, req.(path := Some("/world/of/zewo")))
  {
    StripHello("/hello/beautiful/world/of/zewo", "/hello/beautiful", "/world/of/zewo");
  }
}
