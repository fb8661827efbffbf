/** `Router` (src/routing/router.rs): the root service of an application.
    Routes are kept per HTTP method as a table of patterns; wildcard routes
    match any path containing them; a request nothing matches goes to the
    `notFound` handler, or is answered 404. */
module Routers {
  import opened Wrappers
  import opened Http
  import opened Middlewares
  import opened Services
  import opened RoutingUtil
  import opened RouteTable
  import opened Registration
  import opened Recognizer
  import RouteGroups
  import Extensions
  import Requests
  import Responses

  /** `str::contains`: whether `sub` occurs in `s`, searched position by position. */
  function Contains(s: string, sub: string): bool
    decreases |s|
  {
    sub <= s || (|s| > 0 && Contains(s[1..], sub))
  }

  /** `sub` occurs in `s` at position `i`. */
  predicate OccursAt(s: string, sub: string, i: nat) {
    i + |sub| <= |s| && s[i..i + |sub|] == sub
  }

  /** The search finds exactly the substrings that occur somewhere. */
  lemma {:induction false} ContainsOccurs(s: string, sub: string)
    ensures Contains(s, sub) <==> exists i: nat :: OccursAt(s, sub, i)
    decreases |s|
  {
    if sub <= s {
      assert OccursAt(s, sub, 0);
    } else if |s| > 0 {
      ContainsOccurs(s[1..], sub);
      if Contains(s[1..], sub) {
        var i: nat :| OccursAt(s[1..], sub, i);
        assert s[i + 1..i + 1 + |sub|] == s[1..][i..i + |sub|];
        assert OccursAt(s, sub, i + 1);
      }
      if exists i: nat :: OccursAt(s, sub, i) {
        var i: nat :| OccursAt(s, sub, i);
        assert i > 0;
        assert s[1..][i - 1..i - 1 + |sub|] == s[i..i + |sub|];
        assert OccursAt(s[1..], sub, i - 1);
      }
    }
  }

  /** A wildcard pattern matches any path it occurs in, not only at its start:
      the pattern "/api" matches "/v1/api/users" as well. */
  lemma WildcardAnywhere()
    ensures Contains("/v1/api/users", "/api")
  {
    assert OccursAt("/v1/api/users", "/api", 3);
    ContainsOccurs("/v1/api/users", "/api");
  }

  class Router {
    var routes: Routes
    var before: Option<Middleware>
    var after: Option<Middleware>
    var notFound: Option<Handler>
    var wildcards: map<string, Handler>

    /** `Router::new`: nothing registered. */
    constructor()
      ensures routes == map[] && before == None && after == None && notFound == None && wildcards == map[]
    {
      routes := map[];
      before := None;
      after := None;
      notFound := None;
      wildcards := map[];
    }

    /** `before`: the request middleware for routes added from now on. */
    method Before(b: Middleware)
      modifies this
      ensures before == Some(b)
      ensures routes == old(routes) && after == old(after) && notFound == old(notFound) && wildcards == old(wildcards)
    {
      before := Some(b);
    }

    /** `after`: the response middleware for routes added from now on. */
    method After(a: Middleware)
      modifies this
      ensures after == Some(a)
      ensures routes == old(routes) && before == old(before) && notFound == old(notFound) && wildcards == old(wildcards)
    {
      after := Some(a);
    }

    /** `route`: add the pattern, as given, with the handler wrapped in the
        router's current middlewares. */
    method Route(m: Method, path: string, h: Handler)
      modifies this
      ensures routes == Insert(old(routes), m, path, ArcHandler(before, h, after))
      ensures before == old(before) && after == old(after) && notFound == old(notFound) && wildcards == old(wildcards)
    {
      routes := Insert(routes, m, path, ArcHandler(before, h, after));
    }

    /** The `get`, `get2`, ..., `delete4` shorthands. */
    method Register(f: Family, v: Variant, path: string, h: Handler)
      modifies this
      ensures routes == Insert(old(routes), TargetMethod(f, v), path, ArcHandler(before, VariantHandler(v, h), after))
      ensures before == old(before) && after == old(after) && notFound == old(notFound) && wildcards == old(wildcards)
    {
      Route(TargetMethod(f, v), path, VariantHandler(v, h));
    }

    /** `notFound`: the handler for requests no route matches. */
    method NotFound(h: Handler)
      modifies this
      ensures notFound == Some(h)
      ensures routes == old(routes) && before == old(before) && after == old(after) && wildcards == old(wildcards)
    {
      notFound := Some(h);
    }

    /** `any`: a wildcard route, wrapped in the router's current middlewares. */
    method Any(route: string, h: Handler)
      modifies this
      ensures wildcards == old(wildcards)[route := ArcHandler(before, h, after)]
      ensures routes == old(routes) && before == old(before) && after == old(after) && notFound == old(notFound)
    {
      wildcards := wildcards[route := ArcHandler(before, h, after)];
    }

    /** `group`: add every route of `g`, path as stored in the group, wrapped
        in the router's current middlewares. */
    method Group(g: RouteGroups.RouteGroup)
      modifies this
      ensures forall m, k :: Lookup(routes, m, k) == Nested(old(routes), old(g.routes), "", before, after, m, k)
      ensures before == old(before) && after == old(after) && notFound == old(notFound) && wildcards == old(wildcards)
    {
      routes := Merge(routes, g.routes, "", before, after);
    }

    /** Pattern `pat` is registered under `m` and recognizes `path` once its
        trailing slash is stripped. */
    predicate StrictHit(m: Method, path: string, pat: string)
      requires |path| > 0
      reads this
    {
      m in routes && pat in routes[m] && Matches(pat, StripTrailingSlash(path))
    }

    /** `matchRoute`: strip one trailing slash, then recognize the path in the
        method's table. */
    method MatchRoute(path: string, m: Method) returns (r: Option<Match<Handler>>)
      requires |path| > 0
      ensures r.Some? ==> exists pat :: (StrictHit(m, path, pat) &&
        r.value == Match(routes[m][pat], Recognizer.Params(pat, StripTrailingSlash(path))))
      ensures r.None? <==> forall pat :: !StrictHit(m, path, pat)
    {
      var route := StripTrailingSlash(path);
      if m in routes {
        r := Recognize(routes[m], route);
      } else {
        r := None;
      }
    }

    /** `match_wildcard`: the handler of some wildcard the path contains. */
    method MatchWildcard(route: string) returns (r: Option<Handler>)
      ensures r.Some? ==> exists w :: w in wildcards && Contains(route, w) && r.value == wildcards[w]
      ensures r.None? <==> forall w :: w in wildcards ==> !Contains(route, w)
    {
      var todo := wildcards.Keys;
      while todo != {}
        invariant todo <= wildcards.Keys
        invariant forall w :: w in wildcards.Keys - todo ==> !Contains(route, w)
        decreases todo
      {
        var w :| w in todo;
        if Contains(route, w) {
          return Some(wildcards[w]);
        }
        todo := todo - {w};
      }
      return None;
    }

    /** `call`: a route match runs its handler with the captured parameters
        stored on the request; otherwise a wildcard the path contains runs;
        otherwise the `notFound` handler; otherwise the answer is an empty
        404 response. */
    method Call(env: Env, req: Requests.Request, res: Responses.Response) returns (r: Result<Responses.Response, Responses.Response>)
      requires |req.Path()| > 0
      ensures (exists pat :: StrictHit(req.httpMethod, req.Path(), pat)) ==>
        exists pat :: StrictHit(req.httpMethod, req.Path(), pat) &&
          r == Services.Call(env, routes[req.httpMethod][pat],
                 req.Set(Extensions.Params(Recognizer.Params(pat, StripTrailingSlash(req.Path())))).0, res)
      ensures (forall pat :: !StrictHit(req.httpMethod, req.Path(), pat)) && (exists w :: w in wildcards && Contains(req.Path(), w)) ==>
        exists w :: w in wildcards && Contains(req.Path(), w) && r == Services.Call(env, wildcards[w], req, res)
      ensures (forall pat :: !StrictHit(req.httpMethod, req.Path(), pat)) && (forall w :: w in wildcards ==> !Contains(req.Path(), w)) ==>
        r == (if notFound.Some? then Services.Call(env, notFound.value, req, res)
              else Ok(Responses.Response.Default().WithStatus(404)))
    {
      var wildcard := MatchWildcard(req.Path());
      var routeMatch := MatchRoute(req.Path(), req.httpMethod);
      if routeMatch.Some? {
        var (request, _) := req.Set(Extensions.Params(routeMatch.value.params));
        r := Services.Call(env, routeMatch.value.handler, request, res);
      } else if wildcard.Some? {
        r := Services.Call(env, wildcard.value, req, res);
      } else if notFound.Some? {
        r := Services.Call(env, notFound.value, req, res);
      } else {
        r := Ok(Responses.Response.Default().WithStatus(404));
      }
    }
  }
}
