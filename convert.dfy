/** Conversions into responses (src/proto/convert.rs) and the hand-over of a
    handler's outcome to hyper at the connection boundary. */
module Convert {
  import opened Wrappers
  import opened Http
  import opened Json
  import opened Requests
  import opened Responses

  /** `From<(u16, T)>`: status `code`, a JSON Content-Type and the JSON of `value`. */
  function FromStatusJson(code: nat, value: JsonValue): (r: Response)
    requires ValidStatus(code)
    ensures r.Status() == code
    ensures r.parts.headers == map[CONTENT_TYPE := APPLICATION_JSON]
    ensures r.body == JsonOf(value)
    ensures r.parts.extensions == map[]
  {
    var res := Response.Default();
    var res := res.(parts := res.parts.(headers := res.parts.headers[CONTENT_TYPE := APPLICATION_JSON]));
    res.WithStatus(code).WithBody(JsonOf(value))
  }

  /** The message each `JsonError` reports in its `{"error": ...}` body. */
  function JsonErrorMessage(e: JsonError): string {
    match e
    case JsonMissing => "Json was empty"
    case JsonInvalid(m) => m
  }

  /** The message each `QueryParseError` reports in its `{"error": ...}` body. */
  function QueryErrorMessage(e: QueryParseError): string {
    match e
    case QueryMissing => "query data was empty"
    case QueryInvalid(m) => m
  }

  /** `From<JsonError>`: 400 with a JSON error object. */
  function FromJsonError(e: JsonError): (r: Response)
    ensures r.Status() == 400
    ensures r.parts.headers == map[CONTENT_TYPE := APPLICATION_JSON]
    ensures e == JsonMissing ==> r.body == JsonOf(ErrorObject("Json was empty"))
    ensures e.JsonInvalid? ==> r.body == JsonOf(ErrorObject(e.message))
  {
    var res := Response.Default();
    var res := res.(parts := res.parts.(headers := res.parts.headers[CONTENT_TYPE := APPLICATION_JSON]));
    res.BadRequest().WithBody(JsonOf(ErrorObject(JsonErrorMessage(e))))
  }

  /** `From<QueryParseError>`: 400 with a JSON error object. */
  function FromQueryParseError(e: QueryParseError): (r: Response)
    ensures r.Status() == 400
    ensures r.parts.headers == map[CONTENT_TYPE := APPLICATION_JSON]
    ensures e == QueryMissing ==> r.body == JsonOf(ErrorObject("query data was empty"))
    ensures e.QueryInvalid? ==> r.body == JsonOf(ErrorObject(e.message))
  {
    var res := Response.Default();
    var res := res.(parts := res.parts.(headers := res.parts.headers[CONTENT_TYPE := APPLICATION_JSON]));
    res.BadRequest().WithBody(JsonOf(ErrorObject(QueryErrorMessage(e))))
  }

  /** Both error conversions are the tuple conversion `(400, {"error": message})`. */
  lemma ErrorConversionsAreStatusJson(je: JsonError, qe: QueryParseError)
    ensures FromJsonError(je) == FromStatusJson(400, ErrorObject(JsonErrorMessage(je)))
    ensures FromQueryParseError(qe) == FromStatusJson(400, ErrorObject(QueryErrorMessage(qe)))
  {
  }

  /** hyper's own response type. */
  datatype HyperResponse = HyperResponse(parts: Parts, body: Payload)

  /** `From<Response> for hyper::Response`: the parts and body move over unchanged. */
  function IntoHyper(res: Response): (h: HyperResponse)
    ensures h.parts == res.parts && h.body == res.body
  {
    HyperResponse(res.parts, res.body)
  }

  /** `into_parts` followed by `Response { parts, body }`, the way
      `Response::default` builds a response out of a hyper one. */
  function FromHyper(h: HyperResponse): Response {
    Response(h.parts, h.body)
  }

  lemma HyperRoundTrip(res: Response, h: HyperResponse)
    ensures FromHyper(IntoHyper(res)) == res
    ensures IntoHyper(FromHyper(h)) == h
  {
  }

  /** The connection boundary (`RootService::call`): a handler's `Ok` and its
      early `Err` response are both sent to the client. */
  function Respond(outcome: Result<Response, Response>): (h: HyperResponse)
    ensures outcome.Ok? ==> h == IntoHyper(outcome.value)
    ensures outcome.Err? ==> h == IntoHyper(outcome.error)
  {
    match outcome
    case Ok(res) => IntoHyper(res)
    case Err(res) => IntoHyper(res)
  }

  /** An early answer is not told apart from a normal one: the client receives
      the same status, headers and body either way. */
  lemma RespondSendsEither(res: Response)
    ensures Respond(Ok(res)) == Respond(Err(res))
    ensures FromHyper(Respond(Err(res))) == res
  {
  }
}
