# HTTP router model

A Dafny model of the routing core of a Swift HTTP router package. The package
holds several generations of the router, and the model follows all of them.

- **The regex-pattern router.** Four near-identical copies:
  `HTTPRouter/HTTPRouter.swift`, `Spell/HTTPRouter.swift`,
  `Sources/HTTPRouter.swift` and `Sources/Router.swift`.
  - A route path such as `/users/:id` is compiled into an anchored regular
    expression. Every `:name` becomes an alphanumeric capture, and the names
    become the route's parameter keys.
  - A builder appends routes under a base path: single methods, `any`,
    `group`, and the REST sugar `resources`/`resource`.
  - The router answers with the first route whose pattern matches the whole
    request path and whose method set holds the request method. It binds the
    captures to the keys and calls the handler. When no route matches, the
    fallback answers, which is 404 Not Found by default.
  - Modules: `RoutePattern` (route_pattern.dfy), `PatternRouter`
    (pattern_router.dfy) and `Resources` (resources.dfy). Worked scenarios
    per copy are in `RouterScenarios` (router_scenarios.dfy).
  - `RoutePattern` does not implement POSIX regular expressions. It gives the
    pattern language directly:
    - a tokeniser `Compile`;
    - the regex text `RouteRegex`, proved equal to what the source's
      replace/groups loop produces;
    - the language of a pattern, `Instantiate`;
    - a matcher, `Match`, proved to report exactly the captures of every
      string in that language.
- **The capture-slot reader** of `Spectrum/Regex.swift` (`CaptureSlots`,
  capture_slots.dfy). This is the loop that reads capture groups out of the
  ten `regmatch_t` slots.
- **The route-table builder with composition** (`Source/RouterBuilder.swift`;
  `RouteTable` in route_table.dfy).
  - There is one route per path. Each route has an action per method and an
    optional route fallback.
  - It supports `addRoute`, `addRouteFallback`, `methods`, a global fallback,
    and `compose`.
  - `compose` mounts another router's routes under a prefix. It registers a
    responder that drops the prefix's `/`-components from the request path.
    Path splitting and rebuilding live in `PathComponents`
    (path_components.dfy).
  - The package's tests are worked through in `RouteTableScenarios`
    (route_table_scenarios.dfy).
- **The middleware routers** `Source/BasicRouter.swift` and
  `Source/Router.swift`.
  - Each is built from a route-table builder and answers with the matched
    route or the fallback, through the router middleware.
  - The route matcher is an outside strategy, so it is a function parameter.
  - Modules: `RouterDispatch`, `BasicRouter` and `InterceptRouter`.
- **The status enumeration** of `Spell/HTTPStatus.swift` (`HttpStatus`,
  http_status.dfy). It maps codes to cases and back, and its `==` compares
  codes only.

Handlers, responders and middleware are symbolic. A reply records which
caller-supplied code receives which request, or which response a built-in
handler returns. `Options` and `Http` (options.dfy, http.dfy) hold the
`Option` type, request methods, requests and the two fixed responses
(404, 405).

## Model

| member | source | states |
|---|---|---|
| HttpStatus.StatusCode | Spell/HTTPStatus.swift:30-36 | OK has code 200 and NotFound has 404; these are the only named cases with those codes; Unknown carries its own code |
| HttpStatus.ReasonPhrase | Spell/HTTPStatus.swift:38-44 | the phrase is "OK" exactly for OK, "Not Found" exactly for NotFound, and "Unknown" exactly for the catch-all case, whatever its code |
| HttpStatus.FromCode | Spell/HTTPStatus.swift:46-52 | the code of `init(statusCode: c)` is c; the catch-all case is built exactly for codes other than 200 and 404 |
| HttpStatus.CodeRoundTrip | Spell/HTTPStatus.swift:30-52 | code, then status, then code gives the code back, and the status built is canonical |
| HttpStatus.StatusRoundTrip | Spell/HTTPStatus.swift:30-57 | status, then code, then status gives a status `==` to the original; it is identical exactly when the original is canonical |
| HttpStatus.SameIsEquivalence | Spell/HTTPStatus.swift:55-57 | `==` is reflexive, symmetric and transitive; `Unknown(200) == OK` and `Unknown(404) == NotFound` hold although the cases differ |
| HttpStatus.SameOnCanonical | Spell/HTTPStatus.swift:55-57 | on canonical statuses `==` is identity |
| CaptureSlots.Slots | Spectrum/Regex.swift:90-95 | the matcher fills ten slots; slot j (1..9) is unused exactly when fewer than j groups participate |
| CaptureSlots.ReadGroups | Spectrum/Regex.swift:101-106 | the slot loop as written ends exactly when an unused slot follows; it then reports the groups before that slot, all of them used |
| CaptureSlots.ReadGroupsTrapsAtNine | Spectrum/Regex.swift:89-106 | as written, up to eight groups are read in full, and nine or more make the loop index past the ten slots |
| CaptureSlots.ReadGroupsBounded | Spectrum/Regex.swift:101-106 | the loop with a bound check stays inside the slots, reads only used slots and stops at the first unused one |
| CaptureSlots.ReadGroupsBoundedReadsAll | Spectrum/Regex.swift:89-106 | with the bound check, every group that fits in the slots is read, including nine |
| RoutePattern.AlnumRunIsMaximal | HTTPRouter/HTTPRouter.swift:42 | a parameter name is the longest alphanumeric run after `:`: all of it is alphanumeric, and the next character is not |
| RoutePattern.Compile | HTTPRouter/HTTPRouter.swift:42-45 | the reading of a path has no more tokens than the path has characters (what it reads is stated by CompileReadsBack and CompileRender) |
| RoutePattern.ReplaceParams | Spectrum/Regex.swift:115-143 | the leftmost-match replace loop with the template `([[:alnum:]]+)` yields the regex text of the path's token reading: literals kept, each parameter replaced by the capture |
| RoutePattern.GroupParams | Spectrum/Regex.swift:89-113 | the group search with `:([[:alnum:]]+)` over a route path collects exactly the parameter names of its token reading, in source order |
| RoutePattern.Keys | HTTPRouter/HTTPRouter.swift:45 | a route's keys, the parameter names of its reading, are exactly what the group search over its path collects |
| RoutePattern.RouteRegex | HTTPRouter/HTTPRouter.swift:42-46 | the route regex is `^`, the regex text of the path's reading (each parameter replaced by `([[:alnum:]]+)`), then `$` |
| RoutePattern.CompileReadsBack | Spell/HTTPRouter.swift:39-43 | the token reading of any path renders back to the path and is canonical |
| RoutePattern.CompileRender | Spell/HTTPRouter.swift:39-43 | every canonical token sequence is the reading of its rendering, so reading is a bijection onto canonical sequences |
| RoutePattern.Match | HTTPRouter/HTTPRouter.swift:46-50 | every match reports one valid capture per parameter, and the pattern instantiated with them is the whole string |
| RoutePattern.MatchComplete | HTTPRouter/HTTPRouter.swift:46-50 | every instance of a canonical pattern without adjacent parameters is matched with exactly its captures |
| RoutePattern.MatchIff | Sources/HTTPRouter.swift:42-51 | for a valid route path, a string matches exactly when it is an instance of the pattern, and the captures are the instance's values |
| RoutePattern.CompileLiterals | Sources/Router.swift:42-46 | a stretch without `:` reads as literal tokens, whatever follows it |
| RoutePattern.MatchLiterals | Sources/Router.swift:46-50 | a literal prefix matches exactly the strings starting with it, and the rest of the pattern matches the remainder |
| RoutePattern.MatchParam | Sources/Router.swift:46-50 | a parameter captures a whole alphanumeric run in front of the rest of the match |
| RoutePattern.LiteralPathMatchesItself | Spell/HTTPRouter.swift:39-48 | a path without `:` has no keys and matches itself only, with no captures |
| RoutePattern.LiteralThenParam | Spell/HTTPRouter.swift:39-42 | a literal prefix followed by `:name` reads as literals and one parameter, and its only key is the name |
| PatternRouter.Invoke | HTTPRouter/HTTPRouter.swift:216-258 | a built-in handler returns its response and caller code receives the request; an id handler receives the `id` parameter and traps exactly when it is absent |
| PatternRouter.MatchesRequestIff | HTTPRouter/HTTPRouter.swift:49-51 | a route matches a request exactly when the method is one of its methods and the whole path is an instance of its pattern for some captures |
| PatternRouter.Bind | HTTPRouter/HTTPRouter.swift:56-58 | binding sets every key to the value of its last occurrence and keeps every other parameter |
| PatternRouter.RouteGroups | Spectrum/Regex.swift:89-113 | without a match there are no groups; a match of a pattern with nine or more parameters traps in the slot loop; a match with fewer yields its captures; the search never ends exactly for the empty pattern on the empty path |
| PatternRouter.RouteRespond | HTTPRouter/HTTPRouter.swift:53-61 | a request without a path traps; an empty route on an empty path never ends; a matched route with nine or more parameters traps reading the capture slots; a matched route with fewer calls its handler with the bound request |
| PatternRouter.BoundRequest | Sources/HTTPRouter.swift:53-62 | the copy of the request keeps method and path, adds exactly the keys, sets each key to its capture and keeps the other parameters |
| PatternRouter.LiteralRouteKeepsRequest | Sources/Router.swift:53-62 | a route without parameters hands a request for its own path to its handler unchanged |
| PatternRouter.LiteralRouteMisses | Sources/Router.swift:49-51 | a route without parameters matches no other path |
| PatternRouter.Respond | HTTPRouter/HTTPRouter.swift:298-305 | with no routes, or when no route matches, the fallback answers; with routes, a request without a path traps |
| PatternRouter.Dispatch | HTTPRouter/HTTPRouter.swift:298-305 | with no routes the fallback answers; with routes, a request without a path traps |
| PatternRouter.DispatchFirstMatch | HTTPRouter/HTTPRouter.swift:298-305 | the first matching route in registration order answers |
| PatternRouter.DispatchNoMatch | Spell/HTTPRouter.swift:215-222 | when no route matches, the fallback answers |
| PatternRouter.DispatchAppend | Sources/HTTPRouter.swift:200-207 | appended routes never change the answer to a request that an earlier route matches; otherwise the appended routes answer as if alone |
| PatternRouter.NewBuilder | HTTPRouter/HTTPRouter.swift:68-74 | a fresh builder has its base path and no routes, and its fallback answers 404 Not Found |
| PatternRouter.Register | HTTPRouter/HTTPRouter.swift:117-125 | a registration appends exactly one route at `basePath + path` with the given methods and handler, and changes nothing else |
| PatternRouter.Get | HTTPRouter/HTTPRouter.swift:117-125 | `get` appends exactly one route, at `basePath + path`, answering GET only; base path and fallback are unchanged |
| PatternRouter.Post | HTTPRouter/HTTPRouter.swift:131-139 | `post` appends exactly one route, at `basePath + path`, answering POST only |
| PatternRouter.Put | HTTPRouter/HTTPRouter.swift:145-153 | `put` appends exactly one route, at `basePath + path`, answering PUT only |
| PatternRouter.Patch | HTTPRouter/HTTPRouter.swift:159-167 | `patch` appends exactly one route, at `basePath + path`, answering PATCH only |
| PatternRouter.Delete | HTTPRouter/HTTPRouter.swift:173-181 | `delete` appends exactly one route, at `basePath + path`, answering DELETE only |
| PatternRouter.Any | HTTPRouter/HTTPRouter.swift:97-111 | `any` appends exactly one route answering GET, POST, PUT, PATCH and DELETE, and not HEAD or OPTIONS |
| PatternRouter.SetFallback | HTTPRouter/HTTPRouter.swift:89-91 | the fallback is replaced and nothing else changes |
| PatternRouter.Reprefix | HTTPRouter/HTTPRouter.swift:80-86 | each group route is re-created at the outer base path plus its path, with the same methods and handler |
| PatternRouter.GroupAsWritten | HTTPRouter/HTTPRouter.swift:76-87 | as written, the route table becomes the re-prefixed group routes; the outer fallback stays and the group's fallback is dropped |
| PatternRouter.GroupAsWrittenForgets | Spell/HTTPRouter.swift:73-84 | as written, a request that no group route matches goes to the fallback, whatever the earlier routes would answer |
| PatternRouter.Group | Sources/HTTPRouter.swift:77-88 | corrected: the re-prefixed group routes are appended after the routes already registered |
| PatternRouter.GroupKeepsEarlierRoutes | Sources/Router.swift:77-88 | corrected: requests matched by an earlier route are answered as before, and the group routes answer the rest |
| PatternRouter.NewRouter | HTTPRouter/HTTPRouter.swift:290-296 | the router's routes and fallback are exactly those of the builder after `build` |
| PatternRouter.RepeatedRouteShadowed | Sources/Router.swift:118-130 | registering the same path and methods twice adds a route that never answers |
| PatternRouter.DefaultFallbackNotFound | Sources/HTTPRouter.swift:192-207 | a router whose build kept the default fallback answers an unmatched request with 404 Not Found |
| Resources.NewResourceBuilder | HTTPRouter/HTTPRouter.swift:187-246 | every handler of a fresh resource builder answers 405 Method Not Allowed |
| Resources.SetIndex | HTTPRouter/HTTPRouter.swift:192-194 | `index` makes the index handler behave as the given one and keeps the other four |
| Resources.SetCreate | HTTPRouter/HTTPRouter.swift:204-206 | `create` makes the create handler behave as the given one and keeps the other four |
| Resources.SetShow | HTTPRouter/HTTPRouter.swift:216-220 | the show handler calls the caller's code with the request and its `id` parameter, traps without one, and the other handlers stay |
| Resources.SetUpdate | HTTPRouter/HTTPRouter.swift:232-236 | the update handler calls the caller's code with the request and its `id` parameter, traps without one, and the other handlers stay |
| Resources.SetDestroy | HTTPRouter/HTTPRouter.swift:248-252 | the destroy handler calls the caller's code with the request and its `id` parameter, traps without one, and the other handlers stay |
| Resources.IdHandlerReceivesId | HTTPRouter/HTTPRouter.swift:216-258 | a handler set by `show`, `update` or `destroy` calls the caller's code with the request and its `id` parameter, and traps when the parameter is absent |
| Resources.AddResources | HTTPRouter/HTTPRouter.swift:262-272 | `resources` appends six routes: GET and POST on the path, then GET, PUT, PATCH and DELETE on `path/:id`, with PATCH using `update` |
| Resources.AddResource | HTTPRouter/HTTPRouter.swift:275-284 | `resource` appends five routes on the path: GET, POST, PUT, PATCH (with `update`) and DELETE |
| Resources.ResourcesIndexAnswersGet | HTTPRouter/HTTPRouter.swift:266 | a GET whose path matches the collection pattern reaches `index` |
| Resources.ResourcesShowAnswersGet | HTTPRouter/HTTPRouter.swift:266-268 | a GET matching `path/:id` but not the collection pattern reaches `show`, past `index` and `create` |
| Resources.ResourcePaths | HTTPRouter/HTTPRouter.swift:268 | `p/:id` for a literal p reads as `p/` and one parameter, and its only key is `id` |
| Resources.SpellResourcesAsWritten | Spell/HTTPRouter.swift:185-192 | as written, the six routes live at the base path twice, then the path |
| Resources.SpellResourceAsWritten | Spell/HTTPRouter.swift:195-201 | as written, the five routes live at the base path twice, then the path |
| Resources.SpellResourcesAsWrittenMisses | Spell/HTTPRouter.swift:185-192 | as written, with a non-empty literal base path, none of the six routes matches a request for base path plus path |
| Resources.SpellResources | Spell/HTTPRouter.swift:185-192 | corrected: the six routes live at base path plus path, like every other registration |
| Resources.SpellResource | Spell/HTTPRouter.swift:195-201 | corrected: the five routes live at base path plus path |
| Resources.SpellResourcesReachIndex | Spell/HTTPRouter.swift:185-186 | corrected: a GET for base path plus path reaches `index` |
| RouterScenarios.UsersIdMatches | HTTPRouter/HTTPRouter.swift:42-50 | `/users/:id` matches `/users/42` and captures `42` |
| RouterScenarios.ResourcesShowGetsId | HTTPRouter/HTTPRouter.swift:262-272 | with only `show` set, `GET /users/42` reaches `show` with `id` bound to `42` |
| RouterScenarios.SpellResourcesMissAsWritten | Spell/HTTPRouter.swift:185-192 | as written, under base path `/api`, `GET /api/users` gets 404 although `index` is set |
| RouterScenarios.SpellResourcesIndex | Spell/HTTPRouter.swift:185-192 | corrected, the same request reaches `index` |
| RouterScenarios.GroupLosesHealthAsWritten | Sources/HTTPRouter.swift:77-88 | as written, `GET /health` registered before a group `/api` gets 404 |
| RouterScenarios.GroupKeepsHealth | Sources/HTTPRouter.swift:77-88 | corrected, `GET /health` still reaches its handler |
| RouterScenarios.FirstMatchWins | Sources/Router.swift:200-207 | `/:name` registered before `/users` takes `GET /users` and binds `name` to `users` |
| RouterScenarios.NameCapturesUsers | Sources/Router.swift:42-50 | `/:name` has key `name` and matches `/users`, capturing `users` |
| RouterScenarios.AnyIgnoresHead | Sources/Router.swift:98-116 | `any` answers the five common methods only, so a HEAD request goes to the 404 fallback |
| PathComponents.Split | Source/RouterBuilder.swift:49 | splitting on `/` yields non-empty pieces without `/` |
| PathComponents.SplitJoin | Source/RouterBuilder.swift:64-66 | components joined with `/` split back into themselves |
| PathComponents.SplitRejoin | Source/RouterBuilder.swift:64-66 | a rebuilt path (`/` plus the joined components) splits back into its components |
| PathComponents.SplitConcat | Source/RouterBuilder.swift:47-49 | a prefix and a rest that meet at a slash split into the prefix's components followed by the rest's |
| PathComponents.StripComponents | Source/RouterBuilder.swift:64-66 | the rewritten path holds exactly the components after the first n, and none when there are fewer |
| PathComponents.StripStrip | Source/RouterBuilder.swift:64-66 | stripping m and then n components is stripping m + n |
| PathComponents.StripZeroNormalises | Source/RouterBuilder.swift:64-66 | stripping nothing keeps the components and is idempotent |
| PathComponents.StripZeroKeepsRejoined | Source/RouterBuilder.swift:64-66 | a path already in rebuilt form is left unchanged when nothing is stripped |
| PathComponents.StripAll | Source/RouterBuilder.swift:64-66 | stripping all components, or more, leaves `/` |
| PathComponents.StripPrefix | Source/RouterBuilder.swift:47-66 | a request for the mount prefix followed by `rest` is rewritten to the rebuilt components of `rest` |
| RouteTable.Run | Source/RouterBuilder.swift:57-70 | the composing responder answers 400 without a path; otherwise it forwards to its router the same request with the path set to `/` plus the components after the first count joined by `/`, so it holds exactly those components |
| RouteTable.NewBuilder | Source/RouterBuilder.swift:31-37 | a fresh builder has its path, no routes, and a fallback that answers 404 |
| RouteTable.RouteFor | Source/RouterBuilder.swift:224-229 | finds the first route with exactly the path, or reports that none has it |
| RouteTable.AddAction | Source/RouterBuilder.swift:212-222 | keeps the path and global fallback; when a route has the effective path, only that route changes, gaining the action for the method; otherwise one route holding only that action is appended after the others |
| RouteTable.AddRoute | Source/RouterBuilder.swift:212-222 | afterwards the effective path answers the method with the responder behind the middleware, and that path keeps its route fallback; path and global fallback are unchanged |
| RouteTable.AddActionSpec | Source/RouterBuilder.swift:212-222 | afterwards, the effective path answers the method with the action; every other path and method keeps its action, and every route fallback stays |
| RouteTable.AddActionKeepsUnique | Source/RouterBuilder.swift:212-222 | `addRoute` keeps route paths unique |
| RouteTable.AddRouteFallback | Source/RouterBuilder.swift:200-210 | keeps the path and global fallback; appends a route exactly when no route has the effective path |
| RouteTable.AddRouteFallbackSpec | Source/RouterBuilder.swift:200-210 | afterwards, the effective path has the chained fallback, every other path keeps its fallback, and no action changes |
| RouteTable.Get | Source/RouterBuilder.swift:100-102 | afterwards the effective path answers GET with the responder behind the middleware |
| RouteTable.OptionsMethod | Source/RouterBuilder.swift:114-116 | afterwards the effective path answers OPTIONS with the responder behind the middleware |
| RouteTable.Post | Source/RouterBuilder.swift:128-130 | afterwards the effective path answers POST with the responder behind the middleware |
| RouteTable.Put | Source/RouterBuilder.swift:142-144 | afterwards the effective path answers PUT with the responder behind the middleware |
| RouteTable.Patch | Source/RouterBuilder.swift:156-158 | afterwards the effective path answers PATCH with the responder behind the middleware |
| RouteTable.Delete | Source/RouterBuilder.swift:170-172 | afterwards the effective path answers DELETE with the responder behind the middleware |
| RouteTable.RouteFallback | Source/RouterBuilder.swift:190-192 | afterwards the effective path has the chained route fallback, and its actions are unchanged for every method |
| RouteTable.SetFallback | Source/RouterBuilder.swift:78-88 | the global fallback becomes the chained responder; path and routes are unchanged |
| RouteTable.AddMethods | Source/RouterBuilder.swift:176-180 | one `addRoute` per method, in any order the set gives, ends in the same table: each method of the set on the path gets the action |
| RouteTable.Methods | Source/RouterBuilder.swift:175-187 | `methods` registers the chained responder for every method of the set on one path |
| RouteTable.AddAll | Source/RouterBuilder.swift:176-180 | keeps the path and global fallback; one route is added exactly when no route has the effective path and the set is not empty |
| RouteTable.AddAllSpec | Source/RouterBuilder.swift:176-186 | afterwards, exactly the methods of the set on the effective path have the action; no other action and no route fallback changes |
| RouteTable.Compose | Source/RouterBuilder.swift:45-74 | the loop over the sub-router's routes registers the composing action for each of their methods |
| RouteTable.ComposeSpec | Source/RouterBuilder.swift:45-56 | afterwards, `self.path + path + route.path` answers every method of every mounted route with the composing action; other actions and every route fallback are unchanged |
| RouteTableScenarios.TwoMethodsOneRoute | Tests/Router/RouterTests.swift:29-38 | GET and POST on `/users` make one route with two actions |
| RouteTableScenarios.SamePathsComposeActions | Tests/Router/RouterTests.swift:54-84 | two routers mounted at the same path share one route: GET goes to the first, POST to the second, with nothing stripped |
| RouteTableScenarios.SamePathsGetForwarded | Tests/Router/RouterTests.swift:54-84 | `GET /path` reaches the first router with its path unchanged |
| RouteTableScenarios.NestedAction | Tests/Router/RouterTests.swift:40-52 | composing at `/:adjective` under `/:greeting` registers GET on the full pattern, stripping two components |
| RouteTableScenarios.NestedRequestStripped | Tests/Router/RouterTests.swift:40-52 | `/hello/beautiful/world/of/zewo` reaches the inner router as `/world/of/zewo` |
| RouterDispatch.Pick | Source/BasicRouter.swift:60 | the target is the matched route when the matcher finds one, and the fallback otherwise |
| BasicRouter.FromBuilder | Source/BasicRouter.swift:31-36 | routes, fallback and middleware come from the builder and arguments; the matcher is built over exactly the builder's routes |
| BasicRouter.New | Source/BasicRouter.swift:38-51 | `build` runs on a fresh builder at the path, and the router takes its routes and fallback; the defaults are the empty path, the trie matcher and no middleware |
| BasicRouter.Respond | Source/BasicRouter.swift:59-62 | the request goes once through the router middleware, chained to the matched route or else to the fallback |
| BasicRouter.NewMatchesBuilderRoutes | Source/BasicRouter.swift:53-55 | matching asks the matcher about exactly the routes the build registered |
| BasicRouter.DefaultUnmatchedNotFound | Source/BasicRouter.swift:38-62 | with the defaults and an untouched fallback, an unmatched request gets 404 with no middleware in between |
| BasicRouter.MatchedRouteRegistered | Source/BasicRouter.swift:31-36 | a matched route is one the build registered, when the matcher picks from its table |
| InterceptRouter.New | Source/Router.swift:34-41 | routes, fallback and middleware come from the build and the arguments; the matcher (trie by default) is built over exactly those routes |
| InterceptRouter.Respond | Source/Router.swift:49-52 | the matched route, or else the fallback, is intercepted once by the router middleware |
| InterceptRouter.AgreesWithBasicRouter | Source/Router.swift:34-52 | built the same way, this router and the basic router hand every request to the same target through the same middleware |

## Left out

- POSIX regular expressions: the routers compile patterns with `regcomp`. The model reads a route path as literals and `:name` parameters and matches that language directly. The results agree only for route paths whose literals hold no regex metacharacter (`RoutePattern.ValidRoutePath`), which the model requires where it relates the two.
- Two adjacent parameters (`/:a:b` with alphanumeric names): the way POSIX splits one run between two captures is not modelled, so `ValidRoutePath` excludes them.
- `try!` on `Regex(pattern:)`: a failed compile would trap. It cannot fail for valid route paths, so it is not modelled.
- Byte offsets versus characters: `Regex.swift` slices a Swift `String` by C byte offsets. The model treats every character as one unit, which is exact only for ASCII paths.
- `RouteTable.AddAction`: `BasicRoute.addAction` belongs to a module outside this package. It is modelled as a map update that replaces an earlier action for the method. Nothing in `Source/RouterBuilder.swift` raises a duplicate-action error, so the model follows the code.
- `RouteTable.Run`: middleware `chain(to:)` and `intercept` are outside the package. An empty chain runs the inner responder; any other chain is reported as `Intercepted` and not run further.
- Route `respond` of the middleware routers, including route fallbacks and their defaults: targets stay symbolic (`RouterDispatch.Target`).
- Routes that are not `BasicRoute`: `route(for:)` casts with `as?`, which fails for other route types; the model holds only basic routes.
- The trie and regex route matchers: they come from other modules, so the matcher is the function parameter `select`.
- `BasicRouter.Match`, `InterceptRouter.Match` and `RouterDispatch.MatchWith`: `match` only forwards the request to that outside matcher, so these members carry no contract of their own; what holds of a built router's matcher, that it sees exactly the registered routes, is stated by `BasicRouter.NewMatchesBuilderRoutes` and `BasicRouter.MatchedRouteRegistered`.
- Errors thrown by handlers and responders: replies record the call, and an error would pass through unchanged.
- `HTTPRouter/HTTPResourceType.swift`: its default handlers only answer 405. Spell's resource value is modelled by its five handlers (`Resources.ResourceBuilder`).
- `compose` ignores the route fallbacks of the sub-router; the model does the same, as does the source.
- The overloads that take a `responder:` instead of a closure forward to the closure form, and are covered by it.
- `RoutePattern.Compile`: its own contract only bounds the number of tokens; the round trip between a path and its reading is stated by `CompileReadsBack` and `CompileRender`.
- `RouteTable.AddAll`: its own contract states the frame and the route count; which methods get the action is stated by `AddAllSpec`.
- `PatternRouter.RouteRespond`: the case of an empty route path and an empty request path is modelled as `Diverged`. The source searches the empty remainder again and again; the model does not unfold that loop.

## Findings

| source | as written | input that shows it | evidently intended | confidence | as-written member | corrected member |
|---|---|---|---|---|---|---|
| Spectrum/Regex.swift:89-106 | the group loop reads slots until one has `rm_so == -1`, with no bound on the ten-slot array; `PatternRouter.RouteRespond` traps for every matched route with nine or more parameters | route `/:a/:b/:c/:d/:e/:f/:g/:h/:i` and request `/1/2/3/4/5/6/7/8/9`: nine groups fill slots 1-9, and the loop reads slot 10 | stop after the last slot as well, so nine captures are read | high (not executed) | CaptureSlots.ReadGroupsTrapsAtNine | CaptureSlots.ReadGroupsBoundedReadsAll |
| HTTPRouter/HTTPRouter.swift:76-87 | `group` assigns the re-prefixed group routes to `routes`, dropping every route registered before it (same in all four copies) | `get("/health")`, then `group("/api") { get("/users") }`; `GET /health` gets 404 | append the group routes | high (not executed) | RouterScenarios.GroupLosesHealthAsWritten | RouterScenarios.GroupKeepsHealth |
| Spell/HTTPRouter.swift:185-201 | `resources`/`resource` pass `basePath + path` to `get`/`post`/…, which prepend `basePath` again | base path `/api`, `resources("/users")` with `index` set; `GET /api/users` gets 404 | prefix the base path once | high (not executed) | RouterScenarios.SpellResourcesMissAsWritten | RouterScenarios.SpellResourcesIndex |
