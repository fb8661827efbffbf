/** The route tables kept by `RouteGroup` and `Router`: for each HTTP method,
    a table from path (or pattern) to handler. */
module RouteTable {
  import opened Wrappers
  import opened Http
  import opened Middlewares
  import opened Services

  type Routes = map<Method, map<string, Handler>>

  /** The handler registered for `path` under `m`, if any. */
  function Lookup(routes: Routes, m: Method, path: string): (r: Option<Handler>)
    ensures r.Some? <==> m in routes && path in routes[m]
    ensures r.Some? ==> r.value == routes[m][path]
  {
    if m in routes && path in routes[m] then Some(routes[m][path]) else None
  }

  /** `routes.entry(m).or_insert(HashMap::new()).insert(path, h)`: the entry for
      `(m, path)` becomes `h`; every other entry is unchanged. */
  function Insert(routes: Routes, m: Method, path: string, h: Handler): (r: Routes)
    ensures forall m', p' :: Lookup(r, m', p') == if m' == m && p' == path then Some(h) else Lookup(routes, m', p')
  {
    var table := if m in routes then routes[m] else map[];
    routes[m := table[path := h]]
  }

  /** Whether `k` is `prefix` followed by a path that `child` routes under `m`. */
  predicate Mounted(child: Routes, prefix: string, m: Method, k: string) {
    prefix <= k && m in child && k[|prefix|..] in child[m]
  }

  /** Where a group's routes land when it is mounted: every route `(m, p)` of
      `child` appears as `prefix + p`, its handler wrapped between the
      mounting side's middlewares; the rest of `base` is kept. */
  function Nested(base: Routes, child: Routes, prefix: string, before: Option<Middleware>, after: Option<Middleware>, m: Method, k: string): Option<Handler>
  {
    if Mounted(child, prefix, m, k) then Some(ArcHandler(before, child[m][k[|prefix|..]], after))
    else Lookup(base, m, k)
  }

  /** `Nested` restricted to the child routes in `done`: the state part way through mounting. */
  function Partial(base: Routes, child: Routes, prefix: string, before: Option<Middleware>, after: Option<Middleware>, done: set<(Method, string)>, m: Method, k: string): Option<Handler>
  {
    if Mounted(child, prefix, m, k) && (m, k[|prefix|..]) in done then Some(ArcHandler(before, child[m][k[|prefix|..]], after))
    else Lookup(base, m, k)
  }

  /** The nested loops of `group`: every route of `child` inserted under
      `prefix + path`, wrapped as `ArcHandler(before, handler, after)`. */
  method Merge(base: Routes, child: Routes, prefix: string, before: Option<Middleware>, after: Option<Middleware>) returns (r: Routes)
    ensures forall m, k :: Lookup(r, m, k) == Nested(base, child, prefix, before, after, m, k)
  {
    r := base;
    ghost var done: set<(Method, string)> := {};
    var methods := child.Keys;
    while methods != {}
      invariant methods <= child.Keys
      invariant forall m, p :: (m, p) in done <==> m in child && m !in methods && p in child[m]
      invariant forall m, k :: Lookup(r, m, k) == Partial(base, child, prefix, before, after, done, m, k)
      decreases methods
    {
      var m :| m in methods;
      var paths := child[m].Keys;
      while paths != {}
        invariant paths <= child[m].Keys
        invariant forall m', p :: (m', p) in done <==> m' in child && p in child[m'] && (m' !in methods || (m' == m && p !in paths))
        invariant forall m', k :: Lookup(r, m', k) == Partial(base, child, prefix, before, after, done, m', k)
        decreases paths
      {
        var p :| p in paths;
        var full := prefix + p;
        assert full[|prefix|..] == p;
        r := Insert(r, m, full, ArcHandler(before, child[m][p], after));
        done := done + {(m, p)};
        paths := paths - {p};
      }
      methods := methods - {m};
    }
  }

  /** Every child route is found again under the prefixed path. */
  lemma NestedFindsChild(base: Routes, child: Routes, prefix: string, before: Option<Middleware>, after: Option<Middleware>, m: Method, p: string)
    requires m in child && p in child[m]
    ensures Nested(base, child, prefix, before, after, m, prefix + p) == Some(ArcHandler(before, child[m][p], after))
  {
    assert (prefix + p)[|prefix|..] == p;
  }
}
