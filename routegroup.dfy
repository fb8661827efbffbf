/** `RouteGroup` (src/routing/routegroup.rs): routes collected under a parent
    path, wrapped in the group's middlewares, and mountable on another group
    or on a `Router`. */
module RouteGroups {
  import opened Wrappers
  import opened Http
  import opened Middlewares
  import opened Services
  import opened RoutingUtil
  import opened RouteTable
  import opened Registration

  /** How `route` reads the parent: "/" becomes "", a parent without a leading
      '/' gains one, any other parent is kept as it is. */
  function NormalizeParent(parent: string): (r: string)
    requires |parent| > 0
    ensures parent == "/" ==> r == ""
    ensures parent != "/" ==> |r| > 0 && r[0] == '/'
    ensures parent != "/" && parent[0] == '/' ==> r == parent
    ensures parent[0] != '/' ==> r[1..] == parent
  {
    if parent[0] == '/' && |parent| == 1 then ""
    else if parent[0] != '/' then "/" + parent
    else parent
  }

  /** How `route` reads the path: one trailing '/' is stripped, then a '/' is
      put in front when it is missing and the path is longer than one
      character (so a one-character path such as "a" stays unrooted). */
  function NormalizePath(path: string): (r: string)
    requires |path| > 0
    ensures var s := StripTrailingSlash(path);
      (|s| > 0 && s[0] == '/') || |s| <= 1 ==> r == s
    ensures var s := StripTrailingSlash(path);
      !(|s| > 0 && s[0] == '/') && |s| > 1 ==> r == "/" + s
    ensures |r| > 1 ==> r[0] == '/'
  {
    var s := StripTrailingSlash(path);
    if !(|s| > 0 && s[0] == '/') && |s| > 1 then "/" + s else s
  }

  /** The key a route is stored under in its group. */
  function FullPath(parent: string, path: string): string
    requires |parent| > 0 && |path| > 0
  {
    NormalizeParent(parent) + NormalizePath(path)
  }

  /** A path given with or without one trailing slash is stored under the same key. */
  lemma TrailingSlashIgnored(parent: string, path: string)
    requires |parent| > 0 && |path| > 0 && !EndsWith(path, '/')
    ensures FullPath(parent, path + "/") == FullPath(parent, path)
  {
    assert StripTrailingSlash(path + "/") == path;
  }

  /** A rooted path of more than one character, without trailing slash, is
      appended to the normalized parent unchanged. */
  lemma RootedPathKept(parent: string, path: string)
    requires |parent| > 0 && |path| > 1 && path[0] == '/' && !EndsWith(path, '/')
    ensures FullPath(parent, path) == NormalizeParent(parent) + path
  {
  }

  /** The prefix `group` puts in front of a nested group's routes: the parent
      with one leading '/' removed, behind a '/'. */
  function NestPrefix(parent: string): (r: string)
    ensures |r| > 0 && r[0] == '/'
    ensures |parent| > 0 && parent[0] == '/' ==> r == parent
    ensures !(|parent| > 0 && parent[0] == '/') ==> r[1..] == parent
  {
    "/" + if |parent| > 0 && parent[0] == '/' then parent[1..] else parent
  }

  /** `group` and `route` agree on the parent prefix, except for the parent "/":
      `route` drops it, `group` keeps it and nested paths begin with "//". */
  lemma NestPrefixAgrees(parent: string)
    requires |parent| > 0
    ensures NestPrefix(parent) == NormalizeParent(parent) <==> parent != "/"
  {
    if parent[0] == '/' {
      assert "/" + parent[1..] == parent;
    }
  }

  /** Registration examples: "admin" and "/roles" give "/admin/roles"; the path
      "/" adds nothing; the one-character path "a" gives "/admina". */
  lemma FullPathExamples()
    ensures FullPath("admin", "/roles") == "/admin/roles"
    ensures FullPath("admin", "/") == "/admin"
    ensures FullPath("/admin", "/roles/") == "/admin/roles"
    ensures FullPath("admin", "a") == "/admina"
    ensures FullPath("/", "/roles") == "/roles"
  {
    assert StripTrailingSlash("/roles/") == "/roles";
  }

  class RouteGroup {
    var parent: string
    var before: Option<Middleware>
    var after: Option<Middleware>
    var routes: Routes

    /** `RouteGroup::new`: no routes and no middleware yet. */
    constructor(parent: string)
      ensures this.parent == parent && before == None && after == None && routes == map[]
    {
      this.parent := parent;
      before := None;
      after := None;
      routes := map[];
    }

    /** `before`: the request middleware for routes added from now on. */
    method Before(b: Middleware)
      modifies this
      ensures before == Some(b)
      ensures parent == old(parent) && after == old(after) && routes == old(routes)
    {
      before := Some(b);
    }

    /** `after`: the response middleware for routes added from now on. */
    method After(a: Middleware)
      modifies this
      ensures after == Some(a)
      ensures parent == old(parent) && before == old(before) && routes == old(routes)
    {
      after := Some(a);
    }

    /** `route`: store the handler, wrapped in the group's current middlewares,
        under the normalized full path; the source panics on an empty parent
        (and on an empty path, inside `stripTrailingSlash`). */
    method Route(m: Method, path: string, h: Handler)
      requires |parent| > 0 && |path| > 0
      modifies this
      ensures parent == old(parent) && before == old(before) && after == old(after)
      ensures routes == Insert(old(routes), m, FullPath(parent, path), ArcHandler(before, h, after))
    {
      routes := Insert(routes, m, FullPath(parent, path), ArcHandler(before, h, after));
    }

    /** The `get`, `get2`, ..., `delete4` shorthands. */
    method Register(f: Family, v: Variant, path: string, h: Handler)
      requires |parent| > 0 && |path| > 0
      modifies this
      ensures parent == old(parent) && before == old(before) && after == old(after)
      ensures routes == Insert(old(routes), TargetMethod(f, v), FullPath(parent, path), ArcHandler(before, VariantHandler(v, h), after))
    {
      Route(TargetMethod(f, v), path, VariantHandler(v, h));
    }

    /** `group`: mount `child`'s routes under this group's parent, each wrapped
        in this group's current middlewares. */
    method Group(child: RouteGroup)
      modifies this
      ensures forall m, k :: Lookup(routes, m, k) == Nested(old(routes), old(child.routes), NestPrefix(parent), before, after, m, k)
      ensures parent == old(parent) && before == old(before) && after == old(after)
    {
      routes := Merge(routes, child.routes, NestPrefix(parent), before, after);
    }
  }
}
