/** The registration shorthands shared by `RouteGroup` and `Router`: for each
    of GET, POST, PUT, PATCH and DELETE, a plain form (`get`), a form with a
    request middleware (`get2`), one with both middlewares (`get3`) and one
    with a response middleware (`get4`). */
module Registration {
  import opened Wrappers
  import opened Http
  import opened Middlewares
  import opened Services

  /** Which shorthand family: `get*`, `post*`, `put*`, `patch*`, `delete*`. */
  datatype Family = Get | Post | Put | Patch | Delete

  /** Which member of the family: the plain form, `2`, `3` or `4`. */
  datatype Variant =
    | Plain
    | WithRequestMw(before: Middleware)
    | WithBothMw(before: Middleware, after: Middleware)
    | WithResponseMw(after: Middleware)

  /** The HTTP method a family is named after. */
  function FamilyMethod(f: Family): Method {
    match f
    case Get => GET
    case Post => POST
    case Put => PUT
    case Patch => PATCH
    case Delete => DELETE
  }

  /** The method a shorthand actually registers under. `post4` registers its
      route under GET, in both `RouteGroup` and `Router`. */
  function TargetMethod(f: Family, v: Variant): Method {
    if f == Post && v.WithResponseMw? then GET else FamilyMethod(f)
  }

  /** Every shorthand registers under the method it is named after, except `post4`. */
  lemma TargetMethodNamed(f: Family, v: Variant)
    ensures TargetMethod(f, v) == FamilyMethod(f) <==> !(f == Post && v.WithResponseMw?)
  {
  }

  /** The request middleware a variant mounts, if any. */
  function VariantBefore(v: Variant): Option<Middleware> {
    match v
    case Plain => None
    case WithRequestMw(b) => Some(b)
    case WithBothMw(b, _) => Some(b)
    case WithResponseMw(_) => None
  }

  /** The response middleware a variant mounts, if any. */
  function VariantAfter(v: Variant): Option<Middleware> {
    match v
    case Plain => None
    case WithRequestMw(_) => None
    case WithBothMw(_, a) => Some(a)
    case WithResponseMw(a) => Some(a)
  }

  /** The handler a shorthand passes on to `route`: the service itself for the
      plain form, otherwise an `ArcHandler` around it with the variant's middlewares. */
  function VariantHandler(v: Variant, h: Handler): (r: Handler)
    ensures v.Plain? ==> r == h
    ensures !v.Plain? ==> r.ArcHandler? && r.handler == h && r.before == VariantBefore(v) && r.after == VariantAfter(v)
  {
    if v.Plain? then h else ArcHandler(VariantBefore(v), h, VariantAfter(v))
  }

  /** Whatever the variant, the registered handler runs the variant's request
      middleware, then the service, then the variant's response middleware. */
  lemma VariantHandlerRuns(env: Env, v: Variant, h: Handler, req: Requests.Request, res: Responses.Response)
    ensures Call(env, VariantHandler(v, h), req, res) == Staged(env, VariantBefore(v), h, VariantAfter(v), req, res)
  {
    if v.Plain? {
      match Call(env, h, req, res)
      case Err(e) =>
      case Ok(s) =>
    } else {
      CallIsStaged(env, VariantBefore(v), h, VariantAfter(v), req, res);
    }
  }
}
