/** Client scenarios: the routing behaviour the repository's own tests
    exercise (src/routing/mod.rs, src/contrib/fakeReactor.rs), replayed on
    the model. */
module Scenarios {
  import opened Wrappers
  import opened Http
  import opened Services
  import opened RoutingUtil
  import opened RouteTable
  import opened Registration
  import opened Recognizer
  import opened RouteGroups
  import opened Routers
  import Requests
  import Responses
  import Extensions

  /** `/hello` is found; `/world` is not. */
  method MatchesTheCorrectRoutes() returns (shouldExist: Option<Match<Handler>>, shouldNotExist: Option<Match<Handler>>)
    ensures shouldExist.Some? && shouldNotExist.None?
  {
    var router := new Router();
    router.Register(Get, Plain, "/hello", Service(0));
    assert router.routes[GET].Keys == {"/hello"} by {
      assert forall k :: k in router.routes[GET] <==> Lookup(router.routes, GET, k).Some?;
    }
    PlainPatternMatchesItself("/hello");
    assert StripTrailingSlash("/hello") == "/hello";
    assert router.StrictHit(GET, "/hello", "/hello");
    shouldExist := router.MatchRoute("/hello", GET);
    assert router.StrictHit(GET, "/hello", "/hello");

    HelloIsNotWorld();
    assert StripTrailingSlash("/world") == "/world";
    shouldNotExist := router.MatchRoute("/world", GET);
    assert forall pat :: !router.StrictHit(GET, "/world", pat);
  }

  /** The pattern `/hello` does not recognize `/world`. */
  lemma HelloIsNotWorld()
    ensures !Matches("/hello", "/world")
  {
    SegmentsOfRooted(["hello"]);
    assert "/hello" == "/" + Join(["hello"]);
    SegmentsOfRooted(["world"]);
    assert "/world" == "/" + Join(["world"]);
  }

  /** `/hello/:name` recognizes `/hello/seun`, capturing `seun` as `name`. */
  method MatchesRoutesWithParams() returns (shouldExist: Option<Match<Handler>>, shouldNotExist: Option<Match<Handler>>)
    ensures shouldExist.Some? && shouldExist.value.params == map["name" := "seun"]
    ensures shouldNotExist.None?
  {
    var router := new Router();
    router.Register(Get, Plain, "/hello/:name", Service(0));
    assert router.routes[GET].Keys == {"/hello/:name"} by {
      assert forall k :: k in router.routes[GET] <==> Lookup(router.routes, GET, k).Some?;
    }
    HelloName();
    HelloNameRejects();
    assert StripTrailingSlash("/hello/seun") == "/hello/seun";
    assert router.StrictHit(GET, "/hello/seun", "/hello/:name");
    shouldExist := router.MatchRoute("/hello/seun", GET);
    assert router.StrictHit(GET, "/hello/seun", "/hello/:name");
    assert StripTrailingSlash("/world/seun/lanlege") == "/world/seun/lanlege";
    shouldNotExist := router.MatchRoute("/world/seun/lanlege", GET);
  }

  /** A group's routes are found under its parent, with or without a trailing slash. */
  method MatchesNestedRoutes() returns (shouldExist: Option<Match<Handler>>, shouldExist1: Option<Match<Handler>>,
                                         shouldExist2: Option<Match<Handler>>, shouldExist3: Option<Match<Handler>>)
    ensures shouldExist.Some? && shouldExist1.Some? && shouldExist2.Some? && shouldExist3.Some?
  {
    var group := AdminGroup();
    var router := new Router();
    router.Group(group);
    MountedAtRoot(router.routes, group.routes, GET, "/admin/roles");
    MountedAtRoot(router.routes, group.routes, GET, "/admin");

    PlainPatternMatchesItself("/admin/roles");
    PlainPatternMatchesItself("/admin");
    assert StripTrailingSlash("/admin/roles/") == "/admin/roles";
    assert StripTrailingSlash("/admin/") == "/admin";
    shouldExist := router.MatchRoute("/admin/roles", GET);
    assert router.StrictHit(GET, "/admin/roles", "/admin/roles");
    assert shouldExist.Some?;
    shouldExist1 := router.MatchRoute("/admin", GET);
    assert router.StrictHit(GET, "/admin", "/admin");
    assert shouldExist1.Some?;
    shouldExist2 := router.MatchRoute("/admin/roles/", GET);
    assert router.StrictHit(GET, "/admin/roles/", "/admin/roles");
    assert shouldExist2.Some?;
    shouldExist3 := router.MatchRoute("/admin/", GET);
    assert router.StrictHit(GET, "/admin/", "/admin");
  }

  /** The group of the nesting test: "admin" with `/roles` and `/`. */
  method AdminGroup() returns (group: RouteGroup)
    ensures fresh(group)
    ensures Lookup(group.routes, GET, "/admin/roles").Some?
    ensures Lookup(group.routes, GET, "/admin").Some?
  {
    group := new RouteGroup("admin");
    FullPathExamples();
    group.Register(Get, Plain, "/roles", Service(0));
    assert Lookup(group.routes, GET, "/admin/roles").Some?;
    group.Register(Get, Plain, "/", Service(1));
    assert Lookup(group.routes, GET, "/admin/roles").Some?;
    assert Lookup(group.routes, GET, "/admin").Some?;
  }

  /** A route of a group mounted on a router is registered under the same path. */
  lemma MountedAtRoot(routes: Routes, child: Routes, m: Method, k: string)
    requires forall m', k' :: Lookup(routes, m', k') == Nested(map[], child, "", None, None, m', k')
    requires Lookup(child, m, k).Some?
    ensures m in routes && k in routes[m]
  {
    MountedUnder(routes, map[], child, "", m, k);
    assert "" + k == k;
  }

  /** The groups of the deep-nesting test: "users" with `/profile`, mounted in
      "admin" with `/roles`. */
  method AdminWithUsers() returns (group: RouteGroup)
    ensures fresh(group)
    ensures Lookup(group.routes, GET, "/admin/roles").Some?
    ensures Lookup(group.routes, GET, "/admin/users/profile").Some?
  {
    var subrouter := UsersGroup();
    group := RolesGroup();
    ghost var before := group.routes;
    group.Group(subrouter);
    assert NestPrefix("admin") == "/admin";
    MountedUnder(group.routes, before, subrouter.routes, "/admin", GET, "/users/profile");
    assert "/admin" + "/users/profile" == "/admin/users/profile";
    KeptWhenMounting(group.routes, before, subrouter.routes, "/admin", GET, "/admin/roles");
  }

  /** "users" with `/profile`. */
  method UsersGroup() returns (group: RouteGroup)
    ensures fresh(group)
    ensures Lookup(group.routes, GET, "/users/profile").Some?
  {
    group := new RouteGroup("users");
    assert FullPath("users", "/profile") == "/users/profile";
    group.Register(Get, Plain, "/profile", Service(0));
  }

  /** "admin" with `/roles`. */
  method RolesGroup() returns (group: RouteGroup)
    ensures fresh(group) && group.parent == "admin" && group.before == None && group.after == None
    ensures Lookup(group.routes, GET, "/admin/roles").Some?
  {
    group := new RouteGroup("admin");
    assert FullPath("admin", "/roles") == "/admin/roles";
    group.Register(Get, Plain, "/roles", Service(1));
  }

  /** After mounting, a child route is registered under the prefixed path. */
  lemma MountedUnder(routes: Routes, base: Routes, child: Routes, prefix: string, m: Method, p: string)
    requires forall m', k' :: Lookup(routes, m', k') == Nested(base, child, prefix, None, None, m', k')
    requires Lookup(child, m, p).Some?
    ensures Lookup(routes, m, prefix + p).Some?
  {
    assert Lookup(routes, m, prefix + p) == Nested(base, child, prefix, None, None, m, prefix + p);
    NestedFindsChild(base, child, prefix, None, None, m, p);
  }

  /** After mounting, a route registered before is still registered. */
  lemma KeptWhenMounting(routes: Routes, base: Routes, child: Routes, prefix: string, m: Method, k: string)
    requires forall m', k' :: Lookup(routes, m', k') == Nested(base, child, prefix, None, None, m', k')
    requires Lookup(base, m, k).Some?
    ensures Lookup(routes, m, k).Some?
  {
    assert Lookup(routes, m, k) == Nested(base, child, prefix, None, None, m, k);
  }

  /** A group mounted in a group mounted on the router: `/admin/users/profile`. */
  method MatchesDeeplyNestedRoutes() returns (shouldExist: Option<Match<Handler>>, shouldExist1: Option<Match<Handler>>)
    ensures shouldExist.Some? && shouldExist1.Some?
  {
    var group := AdminWithUsers();
    var router := new Router();
    router.Group(group);
    MountedAtRoot(router.routes, group.routes, GET, "/admin/roles");
    MountedAtRoot(router.routes, group.routes, GET, "/admin/users/profile");

    PlainPatternMatchesItself("/admin/roles");
    PlainPatternMatchesItself("/admin/users/profile");
    assert StripTrailingSlash("/admin/roles/") == "/admin/roles";
    assert StripTrailingSlash("/admin/users/profile/") == "/admin/users/profile";
    shouldExist := router.MatchRoute("/admin/roles/", GET);
    assert router.StrictHit(GET, "/admin/roles/", "/admin/roles");
    assert shouldExist.Some?;
    shouldExist1 := router.MatchRoute("/admin/users/profile/", GET);
    assert router.StrictHit(GET, "/admin/users/profile/", "/admin/users/profile");
  }

  /** The service of the fake-reactor test: 200 with body "Hello World". */
  function HelloWorld(id: ServiceId, req: Requests.Request, res: Responses.Response): Result<Responses.Response, Responses.Response> {
    Ok(res.WithStatus(200).WithBody(Responses.Bytes("Hello World")))
  }

  /** The fake reactor's `get("/hello?lol=p")`: it matches the route itself and calls the matched
      handler directly (no params stored, no wildcard or notFound fallback); the query plays no
      part in routing. */
  method ReturnsTheCorrectBody() returns (result: Result<Responses.Response, Responses.Response>)
    ensures result.Ok? && result.value.body == Responses.Bytes("Hello World")
  {
    var router := HelloRouter();
    var env := Env(HelloWorld, (id, q) => Ok(q), (id, s) => Ok(s));
    var req := Requests.Request.New(GET, Uri("/hello", Some("lol=p")), Http11, map[], Requests.EmptyBody);
    PlainPatternMatchesItself("/hello");
    assert StripTrailingSlash("/hello") == "/hello";
    var matched := router.MatchRoute(req.Path(), GET);
    assert router.StrictHit(GET, req.Path(), "/hello");
    var pat :| router.StrictHit(GET, req.Path(), pat) &&
      matched.value == Match(router.routes[GET][pat], Recognizer.Params(pat, StripTrailingSlash(req.Path())));
    assert pat == "/hello";
    result := Services.Call(env, matched.value.handler, req, Responses.Response.Default());
    HelloWorldAnswers(env, req, Responses.Response.Default());
  }

  /** A router with the plain GET route `/hello` and nothing else under GET. */
  method HelloRouter() returns (router: Router)
    ensures fresh(router)
    ensures GET in router.routes && router.routes[GET].Keys == {"/hello"}
    ensures router.routes[GET]["/hello"] == ArcHandler(None, Service(0), None)
  {
    router := new Router();
    router.Register(Get, Plain, "/hello", Service(0));
    assert Lookup(router.routes, GET, "/hello") == Some(ArcHandler(None, Service(0), None));
    assert router.routes[GET].Keys == {"/hello"} by {
      assert forall k :: k in router.routes[GET] <==> Lookup(router.routes, GET, k).Some?;
    }
  }

  /** The `/hello` handler of that test answers "Hello World" to any request. */
  lemma HelloWorldAnswers(env: Env, req: Requests.Request, res: Responses.Response)
    requires env.service == HelloWorld
    ensures Services.Call(env, ArcHandler(None, Service(0), None), req, res).Ok?
    ensures Services.Call(env, ArcHandler(None, Service(0), None), req, res).value.body == Responses.Bytes("Hello World")
  {
  }

  /** With nothing registered and no `notFound` handler the answer is 404. */
  method UnmatchedIsNotFound() returns (result: Result<Responses.Response, Responses.Response>)
    ensures result.Ok? && result.value.Status() == 404
  {
    var router := new Router();
    var env := Env(HelloWorld, (id, q) => Ok(q), (id, s) => Ok(s));
    var req := Requests.Request.New(GET, Uri("/anything", None), Http11, map[], Requests.EmptyBody);
    result := router.Call(env, req, Responses.Response.Default());
  }
}
