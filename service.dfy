/** Route handlers (src/proto/service.rs): a user service, or an `ArcHandler`
    wrapping a handler between an optional request middleware and an optional
    response middleware. What a user service or a named middleware does is a
    parameter of the model: `Env` interprets them. */
module Services {
  import opened Wrappers
  import opened Requests
  import opened Responses
  import opened Middlewares

  type ServiceId = nat

  /** The behaviour of the parts the model leaves open: user services and the
      request and response middlewares named by id. */
  datatype Env = Env(
    service: (ServiceId, Request, Response) -> Result<Response, Response>,
    request: (MiddlewareId, Request) -> Result<Request, Response>,
    response: (MiddlewareId, Response) -> Result<Response, Response>)

  /** `Box<ArcService>`: a user service, or an `ArcHandler`, which is itself a service. */
  datatype Handler =
    | Service(id: ServiceId)
    | ArcHandler(before: Option<Middleware>, handler: Handler, after: Option<Middleware>)

  /** `ArcHandler::new`: a handler with no middleware around it. */
  function NewHandler(h: Handler): (r: Handler)
    ensures r.ArcHandler? && r.before == None && r.after == None && r.handler == h
  {
    ArcHandler(None, h, None)
  }

  /** `ArcHandler::before`: set (or replace) the request middleware, keep the rest. */
  function WithBefore(h: Handler, b: Middleware): (r: Handler)
    requires h.ArcHandler?
    ensures r.ArcHandler? && r.before == Some(b) && r.handler == h.handler && r.after == h.after
  {
    h.(before := Some(b))
  }

  /** `ArcHandler::after`: set (or replace) the response middleware, keep the rest. */
  function WithAfter(h: Handler, a: Middleware): (r: Handler)
    requires h.ArcHandler?
    ensures r.ArcHandler? && r.after == Some(a) && r.handler == h.handler && r.before == h.before
  {
    h.(after := Some(a))
  }

  /** `ArcService::call` for handlers, following the four cases of the source:
      before only, after only, both, neither. */
  function Call(env: Env, h: Handler, req: Request, res: Response): Result<Response, Response>
    decreases h
  {
    match h
    case Service(id) => env.service(id, req, res)
    case ArcHandler(before, inner, after) =>
      if before.Some? && after.None? then
        match Apply(env.request, before.value, req)
        case Err(e) => Err(e)
        case Ok(q) => Call(env, inner, q, res)
      else if before.None? && after.Some? then
        match Call(env, inner, req, res)
        case Err(e) => Err(e)
        case Ok(s) => Apply(env.response, after.value, s)
      else if before.Some? && after.Some? then
        match Apply(env.request, before.value, req)
        case Err(e) => Err(e)
        case Ok(q) =>
          match Call(env, inner, q, res)
          case Err(e) => Err(e)
          case Ok(s) => Apply(env.response, after.value, s)
      else
        Call(env, inner, req, res)
  }

  /** An optional middleware: absent passes its input through. */
  function ApplyOpt<T, E>(run: (MiddlewareId, T) -> Result<T, E>, m: Option<Middleware>, x: T): Result<T, E> {
    match m
    case None => Ok(x)
    case Some(mw) => Apply(run, mw, x)
  }

  /** The pipeline an `ArcHandler` stands for, as one uniform composition:
      request middleware, then the handler, then response middleware, each
      stage running only on the previous stage's `Ok`. */
  function Staged(env: Env, before: Option<Middleware>, inner: Handler, after: Option<Middleware>, req: Request, res: Response): Result<Response, Response>
    decreases inner, 1
  {
    match ApplyOpt(env.request, before, req)
    case Err(e) => Err(e)
    case Ok(q) =>
      match Call(env, inner, q, res)
      case Err(e) => Err(e)
      case Ok(s) => ApplyOpt(env.response, after, s)
  }

  /** The four cases of `call` are exactly the uniform pipeline. */
  lemma CallIsStaged(env: Env, before: Option<Middleware>, inner: Handler, after: Option<Middleware>, req: Request, res: Response)
    ensures Call(env, ArcHandler(before, inner, after), req, res) == Staged(env, before, inner, after, req, res)
  {
    match ApplyOpt(env.request, before, req)
    case Err(e) =>
    case Ok(q) =>
      match Call(env, inner, q, res)
      case Err(e) =>
      case Ok(s) =>
  }

  /** A request middleware that answers `Err(e)` stops the pipeline: neither the
      handler nor the response middleware runs, and `e` is the answer. */
  lemma BeforeErrShortCircuits(env: Env, b: Middleware, inner: Handler, after: Option<Middleware>, req: Request, res: Response, e: Response)
    requires Apply(env.request, b, req) == Err(e)
    ensures Call(env, ArcHandler(Some(b), inner, after), req, res) == Err(e)
  {
    CallIsStaged(env, Some(b), inner, after, req, res);
  }

  /** A handler that answers `Err(e)` skips the response middleware. */
  lemma HandlerErrSkipsAfter(env: Env, before: Option<Middleware>, inner: Handler, a: Middleware, req: Request, res: Response, e: Response)
    requires ApplyOpt(env.request, before, req).Ok?
    requires Call(env, inner, ApplyOpt(env.request, before, req).value, res) == Err(e)
    ensures Call(env, ArcHandler(before, inner, Some(a)), req, res) == Err(e)
  {
    CallIsStaged(env, before, inner, Some(a), req, res);
  }

  /** With no middleware an `ArcHandler` is indistinguishable from its handler. */
  lemma NewHandlerTransparent(env: Env, h: Handler, req: Request, res: Response)
    ensures Call(env, NewHandler(h), req, res) == Call(env, h, req, res)
  {
  }

  /** Setting a request middleware puts it in front of whatever the handler did before. */
  lemma WithBeforeRunsFirst(env: Env, h: Handler, b: Middleware, req: Request, res: Response)
    requires h.ArcHandler?
    ensures var r := Apply(env.request, b, req);
      Call(env, WithBefore(h, b), req, res) ==
        if r.Err? then Err(r.error) else Call(env, h.(before := None), r.value, res)
  {
    CallIsStaged(env, Some(b), h.handler, h.after, req, res);
    match Apply(env.request, b, req)
    case Err(e) =>
    case Ok(q) => CallIsStaged(env, None, h.handler, h.after, q, res);
  }

  /** Setting a response middleware runs it on whatever the handler answered with `Ok`. */
  lemma WithAfterRunsLast(env: Env, h: Handler, a: Middleware, req: Request, res: Response)
    requires h.ArcHandler?
    ensures var r := Call(env, h.(after := None), req, res);
      Call(env, WithAfter(h, a), req, res) ==
        if r.Err? then Err(r.error) else Apply(env.response, a, r.value)
  {
    CallIsStaged(env, h.before, h.handler, Some(a), req, res);
    CallIsStaged(env, h.before, h.handler, None, req, res);
    match ApplyOpt(env.request, h.before, req)
    case Err(e) =>
    case Ok(q) =>
  }

  /** Nesting handlers composes their middleware: the outer request middleware
      runs before the inner one, the inner response middleware before the outer. */
  lemma NestedHandlers(env: Env, b1: Middleware, b2: Middleware, inner: Handler, a1: Middleware, a2: Middleware, req: Request, res: Response)
    ensures Call(env, ArcHandler(Some(b1), ArcHandler(Some(b2), inner, Some(a2)), Some(a1)), req, res)
         == Call(env, ArcHandler(Some(Stack([b1, b2])), inner, Some(Stack([a2, a1]))), req, res)
  {
    StackIsChain(env.request, [b1, b2], req);
    StackIsChain(env.response, [a2, a1], res);
    assert [b1, b2][1..] == [b2];
    assert [b2][1..] == [];
    assert [a2, a1][1..] == [a1];
    assert [a1][1..] == [];
    match Apply(env.request, b1, req)
    case Err(e) =>
    case Ok(r1) =>
      StackIsChain(env.request, [b1, b2], req);
      match Apply(env.request, b2, r1)
      case Err(e) =>
        assert Chain(env.request, [b1, b2], req) == Chain(env.request, [b2], r1);
      case Ok(r2) =>
        assert Chain(env.request, [b1, b2], req) == Chain(env.request, [b2], r1) == Chain(env.request, [], r2);
        match Call(env, inner, r2, res)
        case Err(e) =>
        case Ok(s) =>
          StackIsChain(env.response, [a2, a1], s);
          match Apply(env.response, a2, s)
          case Err(e) =>
            assert Chain(env.response, [a2, a1], s) == Err(e);
          case Ok(s2) =>
            assert Chain(env.response, [a2, a1], s) == Chain(env.response, [a1], s2);
            match Apply(env.response, a1, s2)
            case Err(e) =>
            case Ok(s3) =>
              assert Chain(env.response, [a1], s2) == Chain(env.response, [], s3);
  }
}
