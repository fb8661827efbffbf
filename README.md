# arc-reactor dispatch core, modelled in Dafny

This project models how the arc-reactor HTTP framework dispatches a request.

- **Routing.** A `Router` keeps one pattern table per HTTP method plus a
  map of wildcard routes. A `RouteGroup` collects routes under a parent
  path and can be mounted on another group or on the router.
- **Handlers.** A handler is a user service, or an `ArcHandler` that
  surrounds a service with an optional request middleware and an optional
  response middleware.
- **Middleware.** A middleware maps a value to `Ok(value)` to continue or
  to `Err(response)` to stop. A `Vec` of middlewares is itself a middleware
  that folds left to right.
- **Envelopes.** `Request` and `Response` carry a type-indexed extension
  bag. The request body can be taken once.
- **Validators.** The error-to-response conversions and the two body
  pre-check middlewares (`BodyParser`, `MultiPart`) answer with fixed
  status codes.

The behaviour of user services and of individual middlewares is left open.
An `Env` value interprets them, and every property is proved for every
`Env`. The same holds for the multipart form parser, serde decoding and
the Content-Type parameter parser: each is a function parameter.

Module layout, one file each:

- `Wrappers`: `Option`, `Result`.
- `Http`: methods, headers, `to_str`, `parse::<u64>` and `to_string` for numbers.
- `Extensions`: the type-indexed bag.
- `Json`: JSON values.
- `Requests`, `Responses`: the envelopes.
- `Convert`: the `From` conversions.
- `Middlewares`, `Services`: composition.
- `RoutingUtil`: `stripTrailingSlash`.
- `Recognizer`: path patterns.
- `RouteTable`: per-method tables and the mounting loop.
- `Registration`: the `get*`/`post*`/… shorthands.
- `RouteGroups`, `Routers`: the two builders, as classes.
- `BodyParsers`, `MultiParts`: the two pre-check middlewares.
- `Scenarios`: the routing tests of the repository replayed on the model.

Behaviour kept exactly as the code has it, where it departs from what the
documentation suggests:

- `post4` registers its route under GET, in both `RouteGroup` and `Router`.
- `RouteGroup::route` prepends '/' to a path only when the path is longer
  than one character, so `RouteGroup::new("admin").get("a", …)` is stored
  under `/admina`.
- `RouteGroup::group` keeps a parent of "/" and prefixes it with another
  '/', so nested routes begin with `//`. `route` drops that parent instead.
- `Router::route` stores its pattern verbatim. `matchRoute` strips one
  trailing slash from the request path first. So a pattern other than "/"
  that is registered with a trailing slash ("/hello/") matches only request
  paths that end in "//", such as "/hello//". The root pattern "/" still
  matches "/", because both it and the stripped request path "" split into
  one empty segment.
- A wildcard route matches any path that contains it anywhere, not only as
  a prefix.
- `MultiPart` answers a missing Content-Type with the message
  "Invalid Content Length".

## Model

| member | source | states |
|---|---|---|
| RoutingUtil.StripTrailingSlash | src/routing/util.rs:2-10 | the result is a prefix of the input, shorter exactly when the input ends in '/', and then by that one '/'; the empty input panics, so it is a precondition |
| RoutingUtil.StripOnce | src/routing/util.rs:2-10 | stripping again changes the result exactly when the input ended in "//" |
| Recognizer.Split | src/routing/router.rs:439-441 | splitting a path on '/' gives at least one segment, none containing '/' |
| Recognizer.JoinSplit | src/routing/router.rs:439-441 | joining the segments with '/' gives the path back |
| Recognizer.SplitJoin | src/routing/router.rs:439-441 | segments free of '/' are recovered by splitting their join |
| Recognizer.Segments | src/routing/router.rs:439-441 | one leading '/' is dropped before splitting; there is always a segment |
| Recognizer.Matches | src/routing/router.rs:439-441 | a pattern recognizes a path when the segment counts agree, each `:name` meets a non-empty segment and every other segment is equal (no `ensures`; HelloName, HelloNameRejects and PlainPatternMatchesItself pin it down) |
| Recognizer.Captures | src/routing/mod.rs:57-69 | every `:name` segment of the pattern is captured, and every captured name comes from a `:name` segment bound to the path segment in that position |
| Recognizer.Recognize | src/routing/router.rs:439-441 | it answers with a matching pattern's handler and parameters, and answers nothing exactly when no pattern matches |
| Recognizer.PlainMatchesItself | src/routing/mod.rs:28-37 | a pattern without `:name` segments matches its own segments and captures nothing |
| Recognizer.PlainPatternMatchesItself | src/routing/mod.rs:28-37 | a path with no ':' is recognized by the identical pattern, with no parameters |
| Recognizer.SegmentsOfRooted | src/routing/router.rs:439-441 | a rooted path built from '/'-free segments splits back into those segments |
| Recognizer.HelloName | src/routing/mod.rs:57-66 | `/hello/:name` recognizes `/hello/seun` and captures exactly name = "seun" |
| Recognizer.HelloNameRejects | src/routing/mod.rs:62-68 | `/hello/:name` does not recognize `/world/seun/lanlege` or `/hello` |
| RouteTable.Lookup | src/routing/routegroup.rs:14 | a handler is found exactly when the method has a table holding the path, and it is that entry |
| RouteTable.Insert | src/routing/routegroup.rs:406-409 | after inserting, (method, path) finds the new handler and every other (method, path) finds what it found before, so re-registration overwrites |
| RouteTable.Merge | src/routing/routegroup.rs:58-71 | after the nested loops each child route (m, p) is found under prefix + p, wrapped as ArcHandler(before, handler, after), and every other key finds what the base table held |
| RouteTable.NestedFindsChild | src/routing/routegroup.rs:58-71 | every route of a mounted group is found again under the prefixed path |
| Registration.TargetMethodNamed | src/routing/routegroup.rs:199-210 | each shorthand registers under the method it is named after, except `post4`, which registers under GET |
| Registration.VariantHandler | src/routing/routegroup.rs:106-149 | the plain shorthand passes the service itself; `*2`, `*3` and `*4` wrap it with request middleware, both middlewares, or response middleware |
| Registration.VariantHandlerRuns | src/routing/routegroup.rs:106-149 | whatever the shorthand, the registered handler runs its request middleware, then the service, then its response middleware |
| RouteGroups.NormalizeParent | src/routing/routegroup.rs:386-390 | parent "/" gives the empty prefix, a parent without a leading '/' gains one, and any other parent is kept as given |
| RouteGroups.NormalizePath | src/routing/routegroup.rs:392-397 | with s the path minus one trailing '/': the result is "/" + s when s does not start with '/' and is longer than one character, and s itself otherwise |
| RouteGroups.FullPath | src/routing/routegroup.rs:386-398 | the key is the normalized parent followed by the normalized path (no `ensures`; FullPathExamples, TrailingSlashIgnored and RootedPathKept state its properties) |
| RouteGroups.TrailingSlashIgnored | src/routing/routegroup.rs:392-398 | a route path with or without one trailing '/' is stored under the same key |
| RouteGroups.RootedPathKept | src/routing/routegroup.rs:392-398 | a rooted path longer than one character, with no trailing '/', is appended to the prefix unchanged |
| RouteGroups.NestPrefix | src/routing/routegroup.rs:52-60 | the prefix of nested routes is '/' followed by the parent without one leading '/' |
| RouteGroups.NestPrefixAgrees | src/routing/routegroup.rs:380-398 | `group` and `route` use the same prefix for every parent except "/" |
| RouteGroups.FullPathExamples | src/routing/routegroup.rs:386-398 | "admin" with "/roles" gives "/admin/roles", with "/" gives "/admin", and with "a" gives "/admina"; the parent "/" adds nothing |
| RouteGroups.RouteGroup.constructor | src/routing/routegroup.rs:25-32 | a new group has the given parent, no middleware and no routes |
| RouteGroups.RouteGroup.Before | src/routing/routegroup.rs:81-85 | only the request middleware slot changes; routes already registered are untouched |
| RouteGroups.RouteGroup.After | src/routing/routegroup.rs:92-96 | only the response middleware slot changes; routes already registered are untouched |
| RouteGroups.RouteGroup.Route | src/routing/routegroup.rs:374-412 | the handler, wrapped in the middlewares current at this call, is stored under normalized parent + normalized path for that method only; an empty parent or path panics |
| RouteGroups.RouteGroup.Register | src/routing/routegroup.rs:98-372 | each `get*`/`post*`/`put*`/`patch*`/`delete*` shorthand is `route` with its target method and variant handler |
| RouteGroups.RouteGroup.Group | src/routing/routegroup.rs:48-74 | every child route lands under the nest prefix + its path, wrapped in this group's current middlewares; the child's own middleware fields are ignored |
| Routers.Contains | src/routing/router.rs:446 | `str::contains` (no `ensures`; ContainsOccurs proves it finds exactly the substrings that occur) |
| Routers.ContainsOccurs | src/routing/router.rs:446 | the substring search succeeds exactly when the pattern occurs at some position of the path |
| Routers.WildcardAnywhere | src/routing/router.rs:444-451 | a wildcard matches a path containing it away from the start ("/api" in "/v1/api/users") |
| Routers.Router.constructor | src/routing/router.rs:34-42 | a new router has no routes, middleware, notFound handler or wildcards |
| Routers.Router.Before | src/routing/router.rs:96-100 | only the request middleware slot changes; registered routes are untouched |
| Routers.Router.After | src/routing/router.rs:107-111 | only the response middleware slot changes; registered routes are untouched |
| Routers.Router.Route | src/routing/router.rs:415-432 | the pattern is stored verbatim for that method only, its handler wrapped in the current middlewares |
| Routers.Router.Register | src/routing/router.rs:113-387 | each shorthand is `route` with its target method (GET for `post4`) and variant handler |
| Routers.Router.NotFound | src/routing/router.rs:390-397 | only the notFound handler changes |
| Routers.Router.Any | src/routing/router.rs:399-413 | the wildcard is added, wrapped in the current middlewares; nothing else changes |
| Routers.Router.Group | src/routing/router.rs:58-89 | every group route is stored under its own path, wrapped in the router's current middlewares |
| Routers.Router.MatchRoute | src/routing/router.rs:434-442 | after stripping one trailing '/', a pattern of that method recognizing the path is returned with its parameters; nothing is returned exactly when no such pattern exists |
| Routers.Router.MatchWildcard | src/routing/router.rs:444-451 | it returns the handler of a wildcard the raw path contains, and nothing exactly when none is contained |
| Routers.Router.Call | src/routing/router.rs:454-472 | a strict match runs its handler with the captured parameters stored on the request; failing that, a contained wildcard runs; failing that, the notFound handler; failing that, an empty 404 response |
| Middlewares.Apply | src/proto/middleware.rs:184-194 | `call` on a middleware: a box delegates to its contents and a `Vec` runs its fold (no `ensures`; StackIsChain and BoxedChain state its behaviour) |
| Middlewares.Fold | src/proto/middleware.rs:147-161 | the `Vec` implementation as written, a left fold of `and_then` (no `ensures`; FoldIsChain proves it equal to the short-circuit chain) |
| Middlewares.FoldIsChain | src/proto/middleware.rs:147-161 | the left fold of a `Vec` equals running the first middleware and continuing only on `Ok` |
| Middlewares.ChainAppend | src/proto/middleware.rs:142-161 | running a ++ b is running a, then b on its `Ok` value |
| Middlewares.StackIsChain | src/proto/middleware.rs:168-182 | a `Vec` used as one middleware runs its items in order and stops at the first `Err` |
| Middlewares.ShortCircuit | src/proto/middleware.rs:142-161 | once a prefix answers `Err(e)`, the whole vector answers `Err(e)` whatever follows |
| Middlewares.StackAppend | src/proto/middleware.rs:142-161 | one vector of a ++ b behaves like a vector holding the vector a and then the vector b |
| Middlewares.Mw | src/proto/middleware.rs:222-229 | `mw!` takes at least one argument and boxes each, in argument order, inside a boxed `Vec` |
| Middlewares.BoxedChain | src/proto/middleware.rs:184-194 | boxing each middleware does not change what the chain does |
| Middlewares.MwRunsInOrder | src/proto/middleware.rs:222-229 | `mw![m1, …, mn]` runs m1 first and mn last, stopping at the first `Err` |
| Middlewares.OrderMatters | src/proto/middleware.rs:222-229 | `mw![m1, m2]` and `mw![m2, m1]` can answer differently |
| Services.NewHandler | src/proto/service.rs:40-46 | a new handler wraps the service with no middleware |
| Services.WithBefore | src/proto/service.rs:48-50 | the request middleware is set or replaced; the service and response middleware stay |
| Services.WithAfter | src/proto/service.rs:52-54 | the response middleware is set or replaced; the service and request middleware stay |
| Services.Call | src/proto/service.rs:57-98 | `ArcService::call` with its four cases: request middleware only, response middleware only, both, neither (no `ensures`; CallIsStaged states what it does) |
| Services.CallIsStaged | src/proto/service.rs:57-98 | the four cases of `call` are one pipeline: request middleware, then the service on the same `res`, then response middleware, each on the previous `Ok` |
| Services.BeforeErrShortCircuits | src/proto/service.rs:61-69 | a request middleware answering `Err(e)` is the answer, and neither the service nor the response middleware runs |
| Services.HandlerErrSkipsAfter | src/proto/service.rs:71-80 | a service answering `Err(e)` is the answer, and the response middleware is skipped |
| Services.NewHandlerTransparent | src/proto/service.rs:97 | with no middleware, the handler answers exactly as its service does |
| Services.WithBeforeRunsFirst | src/proto/service.rs:57-98 | setting a request middleware puts it in front of what the handler did before |
| Services.WithAfterRunsLast | src/proto/service.rs:57-98 | setting a response middleware runs it on the handler's `Ok` answer |
| Services.NestedHandlers | src/proto/service.rs:57-98 | nested handlers compose: outer request middleware first, inner response middleware first |
| Http.HeaderToStr | src/contrib/multipart/mod.rs:41-44 | a header value reads as text exactly when all its characters are visible ASCII or tab, and it reads as itself |
| Http.DecimalIsHeaderText | src/contrib/multipart/mod.rs:41-44 | a length written by `to_string` always passes `to_str` unchanged, so a Content-Length set by `text` is readable by the size check |
| Http.Decimal | src/core/response.rs:89 | `to_string` of a number (no `ensures`; DecimalDigits and ParseDecimal state what it writes) |
| Http.ParseU64 | src/contrib/multipart/mod.rs:41-44 | a parsed length is below 2^64, and the empty string does not parse |
| Http.DecimalDigits | src/core/response.rs:85-92 | `to_string` of a number writes at least one digit, only digits, and they read back as the number |
| Http.ParseDecimal | src/core/response.rs:85-92 | a number below 2^64 written with `to_string` parses back to itself |
| Extensions.Get | src/core/request.rs:261-263 | the entry of a type is found exactly when the bag holds it |
| Extensions.Insert | src/core/request.rs:266-268 | the previous value of that type is returned, the new value is found, and other types are unchanged |
| Extensions.Remove | src/core/request.rs:271-273 | the stored value is returned, nothing of that type remains, and other types are unchanged |
| Extensions.InsertThenRemove | src/core/request.rs:266-273 | removing what was just set returns it |
| Extensions.InsertStored | src/core/request.rs:261-268 | re-inserting the value already stored changes nothing and hands that value back |
| Requests.Request.New | src/core/request.rs:83-100 | a new request has its body, no remote address and an empty bag |
| Requests.Request.Path | src/core/request.rs:162-164 | `path()` is the URI path, without the query (no `ensures`) |
| Requests.Request.BodyRef | src/core/request.rs:309-311 | `body_ref()` sees the body slot (no `ensures`; TakeBody and SetBody are stated through it) |
| Requests.Request.Get | src/core/request.rs:261-263 | `get::<T>()` looks the type up in the bag (no `ensures`; Extensions.Get states the lookup) |
| Requests.Request.TakeBody | src/core/request.rs:277-282 | `body()` returns the body and leaves the slot empty; once taken it returns the empty body |
| Requests.Request.SetBody | src/core/request.rs:314-316 | only the body changes, and `body_ref` sees it |
| Requests.Request.Set | src/core/request.rs:266-268 | returns the previous value of the type; afterwards `get` finds the new value and other types are unchanged |
| Requests.Request.Remove | src/core/request.rs:271-273 | returns the stored value; afterwards that type is absent and other types are unchanged |
| Requests.Request.Params | src/core/request.rs:221-223 | the parameters are exactly the `Params` entry of the bag |
| Requests.Request.Json | src/core/request.rs:289-297 | the JSON is reported missing exactly when the bag holds no `Json` entry |
| Requests.Request.Query | src/core/request.rs:196-205 | the query is reported missing exactly when the URI has none, and otherwise succeeds exactly when decoding does |
| Requests.Request.Deconstruct | src/core/request.rs:319-327 | yields the parts and the body, or the empty body if it was taken |
| Requests.TakeBodyTwice | src/core/request.rs:277-282 | a second `body()` returns the empty body |
| Requests.SetBodyThenTake | src/core/request.rs:309-316 | after `set_body(b)`, `body()` returns b |
| Responses.Response.Default | src/core/response.rs:244-249 | a new response has status 200, an empty body, no headers and an empty bag |
| Responses.Response.WithStatus | src/core/response.rs:70-81 | the status becomes exactly the code; body, headers and bag are unchanged; an invalid code panics |
| Responses.Response.Text | src/core/response.rs:85-92 | the body becomes the text, Content-Length is set to its length in decimal, and the other headers, the status, the version and the extensions are unchanged |
| Responses.Response.WithBody | src/core/response.rs:167-175 | only the body changes |
| Responses.Response.Redirect | src/core/response.rs:190-196 | status 301 and Location set to the url; other headers, the body, the extension bag and the version unchanged; a url that is not valid header text panics in `from_static`, so it is a precondition |
| Responses.RedirectLocationReadable | src/core/response.rs:190-196 | the Location header of a redirect reads back as the url |
| Responses.Response.Unauthorized | src/core/response.rs:199-202 | status 401; body, headers, extension bag and version unchanged |
| Responses.Response.BadRequest | src/core/response.rs:204-207 | status 400; body, headers, extension bag and version unchanged |
| Responses.Response.Forbidden | src/core/response.rs:209-212 | status 403; body, headers, extension bag and version unchanged |
| Responses.Response.MethodNotAllowed | src/core/response.rs:214-217 | status 405; body, headers, extension bag and version unchanged |
| Responses.Response.NotAcceptable | src/core/response.rs:219-222 | status 406; body, headers, extension bag and version unchanged |
| Responses.Response.RequestTimeout | src/core/response.rs:224-227 | status 408; body, headers, extension bag and version unchanged |
| Responses.Response.InternalServerError | src/core/response.rs:229-232 | status 500; body, headers, extension bag and version unchanged |
| Responses.Response.BadGateway | src/core/response.rs:234-237 | status 502; body, headers, extension bag and version unchanged |
| Responses.Response.ServiceUnavailable | src/core/response.rs:239-242 | status 503; body, headers, extension bag and version unchanged |
| Responses.Response.Get | src/core/response.rs:106-108 | `get::<T>()` looks the type up in the response's extensions (no `ensures`; Extensions.Get states the lookup) |
| Responses.Response.Set | src/core/response.rs:111-113 | same previous-value contract as the request bag; body, status, headers and version are unchanged |
| Responses.Response.Remove | src/core/response.rs:116-118 | same removal contract as the request bag; body, status, headers and version are unchanged |
| Responses.Response.WithFileError | src/core/response.rs:151-157 | a NotFound error answers `Err` with 404, and any other error `Err` with 500; in both the body, headers, extension bag and version are unchanged |
| Responses.WithStatusLastWins | src/core/response.rs:70-81 | setting the status twice keeps only the second code |
| Convert.FromStatusJson | src/proto/convert.rs:11-23 | `(code, value)` gives status code, Content-Type application/json, and the JSON of value as body |
| Convert.FromJsonError | src/proto/convert.rs:55-86 | 400 with `{"error": "Json was empty"}` for a missing body, or with serde's message |
| Convert.FromQueryParseError | src/proto/convert.rs:88-120 | 400 with `{"error": "query data was empty"}` for a missing query, or with serde_qs's message |
| Convert.ErrorConversionsAreStatusJson | src/proto/convert.rs:55-120 | both error conversions are the `(400, {"error": message})` conversion |
| Convert.HyperRoundTrip | src/proto/convert.rs:38-43 | converting into a hyper response loses nothing: taking it apart again with `into_parts` gives the same response |
| Convert.Respond | src/core/rootservice.rs:31-37 | both `Ok(res)` and `Err(res)` are sent as the response res |
| Convert.RespondSendsEither | src/core/rootservice.rs:31-37 | a middleware's early `Err(res)` reaches the client exactly as an `Ok(res)` would, with nothing lost |
| BodyParsers.IsJsonRequest | src/contrib/bodyParser.rs:29-34 | the request counts as JSON exactly when its Content-Type header is `application/json` (no `ensures`; it is the case split of BodyParser's contract) |
| BodyParsers.BadPayload | src/contrib/bodyParser.rs:48-57 | status 400 with body `{"error": message}` |
| BodyParsers.BodyParser | src/contrib/bodyParser.rs:28-66 | a non-JSON request passes unchanged; an unreadable body gives 400 "Could not read request payload"; an empty body gives 400 "Empty request body"; a readable, non-empty JSON body is always accepted, and an accepted request has its body taken and stored as `Json` |
| BodyParsers.ParsedBodyDecodes | src/core/request.rs:289-297 | after the parser accepts a request, `json()` decodes exactly the body sent and never reports it missing |
| BodyParsers.BodyParserOutcomes | src/contrib/bodyParser.rs:28-66 | every refusal is a 400, and an accepted request keeps its headers and URI |
| MultiParts.New | src/contrib/multipart/mod.rs:23-29 | the configuration holds the directory, mimes and limit given |
| MultiParts.Refuse | src/contrib/multipart/mod.rs:48-54 | `(code, message).into()` has that status and the message as a JSON string |
| MultiParts.SizeCheck | src/contrib/multipart/mod.rs:38-57 | without a Content-Length or without a limit no check is made; with both, a length that is not header text or not a `u64` gives 400 "Invalid Content Length", and a readable length is refused exactly when it exceeds the limit; any refusal is a 400 |
| MultiParts.Call | src/contrib/multipart/mod.rs:34-102 | a failed size check is the answer; every refusal is a 400 or 500; an accepted request holds a `MultiPartMap`, has its body taken and keeps its headers |
| MultiParts.OverLimitRefused | src/contrib/multipart/mod.rs:46-51 | a length above the limit is refused with "File upload limit N Exceeded!", before anything else runs |
| MultiParts.InvalidLengthRefused | src/contrib/multipart/mod.rs:41-55 | with a limit set, an unreadable or non-`u64` Content-Length makes the whole middleware answer 400 "Invalid Content Length" |
| MultiParts.SizeCheckRefusesExactly | src/contrib/multipart/mod.rs:38-57 | with a limit and a Content-Length, the size check refuses exactly when the length is unreadable, not a `u64`, or over the limit |
| MultiParts.WithinLimitPasses | src/contrib/multipart/mod.rs:41-51 | a length written in decimal and at most the limit passes the size check |
| MultiParts.ContentTypeRefusals | src/contrib/multipart/mod.rs:60-81 | a missing Content-Type, or one that `to_str` cannot read, gives 400 "Invalid Content Length"; a Content-Type without boundary gives 400 "Unspecified Boundary for Multipart" |
| MultiParts.ParsedFieldsStored | src/contrib/multipart/mod.rs:83-86 | when the form parser succeeds, the request carries exactly the fields it read |
| MultiParts.ParseErrorsClassified | src/contrib/multipart/mod.rs:87-94 | an `InvalidMime` parser error gives 400 "Invalid Content-Type", and any other gives 500 "internal server error" |
| Scenarios.HelloIsNotWorld | src/routing/mod.rs:28-37 | the pattern `/hello` does not recognize `/world` |
| Scenarios.MountedUnder | src/routing/routegroup.rs:58-71 | after mounting, each child route is registered under the prefixed path |
| Scenarios.KeptWhenMounting | src/routing/routegroup.rs:58-71 | after mounting, routes registered earlier are still registered |
| Scenarios.MountedAtRoot | src/routing/router.rs:58-76 | a group route mounted on a router is registered under the same path |
| Scenarios.AdminGroup | src/routing/mod.rs:40-44 | "admin" with `/roles` and `/` registers `/admin/roles` and `/admin` |
| Scenarios.AdminWithUsers | src/routing/mod.rs:71-79 | "users" with `/profile` mounted in "admin" with `/roles` registers `/admin/roles` and `/admin/users/profile` |
| Scenarios.UsersGroup | src/routing/mod.rs:73 | "users" with `/profile` registers `/users/profile` |
| Scenarios.RolesGroup | src/routing/mod.rs:75-76 | "admin" with `/roles` registers `/admin/roles` and keeps "admin" as its parent with no middleware |
| Scenarios.HelloRouter | src/contrib/fakeReactor.rs:140 | a router with `get("/hello", …)` holds exactly the GET pattern `/hello`, bound to that service |
| Scenarios.HelloWorldAnswers | src/contrib/fakeReactor.rs:130-136 | the test service answers Ok with the body "Hello World" |
| Scenarios.MatchesTheCorrectRoutes | src/routing/mod.rs:28-37 | `/hello` is found and `/world` is not |
| Scenarios.MatchesNestedRoutes | src/routing/mod.rs:39-55 | after mounting "admin", `/admin/roles`, `/admin`, `/admin/roles/` and `/admin/` are all found |
| Scenarios.MatchesRoutesWithParams | src/routing/mod.rs:57-69 | `/hello/:name` matches `/hello/seun` with exactly the parameter name = "seun"; `/world/seun/lanlege` is not found |
| Scenarios.MatchesDeeplyNestedRoutes | src/routing/mod.rs:71-87 | `/admin/roles/` and `/admin/users/profile/` are both found |
| Scenarios.ReturnsTheCorrectBody | src/contrib/fakeReactor.rs:138-150 | a GET of `/hello?lol=p`, matched with `matchRoute` and handed to the matched handler as the fake reactor does, answers Ok with the body "Hello World" |
| Scenarios.UnmatchedIsNotFound | src/routing/router.rs:463-469 | with nothing registered and no not-found handler, the answer is Ok with status 404 |

## Left out

- Connection handling, worker threads, TLS and the reactor are not part of this model. They are concurrency and I/O.
- Streaming files back in `with_file` is not modelled; only its error-code mapping is.
- The multipart byte parser is a function parameter. So are serde/serde_qs decoding with percent-decoding and the Content-Type parameter parser.
- JSON encoding is left abstract: a JSON body is a `JsonValue`, not bytes.
- Request, Response: modelled as values rather than objects updated in place. Each `&mut self` setter is a function that returns the updated envelope. Rust moves both envelopes by value through every middleware and handler, so no aliasing is lost.
- Services.WithBefore, Services.WithAfter: modelled as functional updates of a handler value, for the same reason.
- Recognizer.Recognize: when several patterns match, it returns one of them; the recognizer's priority among overlapping patterns is not modelled.
- Glob (`*name`) segments are read as literal segments.
- Registering the same pattern twice overwrites the earlier one in the model.
- Routers.Router.Group: the group's wildcard routes are taken as empty. `RouteGroup` declares no such field, although `Router::group` destructures one.
- `reactor_handle`, `headers_mut`, `remote_ip`, `form` and the hyper-to-Request conversion are not modelled. They are accessors or plumbing with no dispatch logic.
- Requests.Request.Query: percent-decoding and serde_qs are one decoder parameter, so the contract ties the outcome to that decoder and not to a query grammar.
- Strings are ASCII: `stripTrailingSlash` counts characters but slices by bytes, and `text` writes the byte length. Non-ASCII input is not modelled.
- Panics (an empty group parent, an empty path to `stripTrailingSlash`, an invalid status code, a redirect url that is not valid header text) are preconditions.
- Http.ParseU64: its contract states only the 2^64 bound and the empty-string case. The body follows Rust's `u64` grammar: an optional '+', then digits.
- The `mw!` macro is modelled as `Middlewares.Mw`. The `arc!` macro and the `#[service]`/`#[middleware]` proc macros are not modelled.
- Media-type comparison in `BodyParser` is exact string equality with `application/json`. Mime's own parsing and case rules are not modelled.
