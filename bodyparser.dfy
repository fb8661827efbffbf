/** The `BodyParser` request middleware (src/contrib/bodyParser.rs): on a
    request whose Content-Type is `application/json`, read the whole body and
    store it on the request for `Request::json` to decode later. */
module BodyParsers {
  import opened Wrappers
  import opened Http
  import opened Json
  import opened Requests
  import opened Responses
  import Convert
  import Extensions

  /** Whether the request's Content-Type header is `application/json`. */
  predicate IsJsonRequest(req: Request) {
    CONTENT_TYPE in req.headers && req.headers[CONTENT_TYPE] == APPLICATION_JSON
  }

  /** The 400 answer with a `{"error": message}` body. */
  function BadPayload(message: string): (r: Response)
    ensures r.Status() == 400 && r.body == JsonOf(ErrorObject(message))
  {
    Convert.FromStatusJson(400, ErrorObject(message))
  }

  /** `BodyParser::call`. Other content types pass through untouched; a body
      that cannot be read and an empty body are refused with 400; otherwise
      the body moves into the request's `Json` extension. */
  function BodyParser(req: Request): (r: Result<Request, Response>)
    ensures !IsJsonRequest(req) ==> r == Ok(req)
    ensures IsJsonRequest(req) && Concat(req.TakeBody().0).Err? ==>
      r == Err(BadPayload("Could not read request payload"))
    ensures IsJsonRequest(req) && Concat(req.TakeBody().0) == Ok("") ==>
      r == Err(BadPayload("Empty request body"))
    ensures IsJsonRequest(req) && Concat(req.TakeBody().0).Ok? && |Concat(req.TakeBody().0).value| > 0 ==> r.Ok?
    ensures r.Ok? && IsJsonRequest(req) ==>
      var chunk := Concat(req.TakeBody().0);
      chunk.Ok? && |chunk.value| > 0 &&
      r.value.Get(Extensions.JsonType) == Some(Extensions.Json(chunk.value)) &&
      r.value.BodyRef() == None
  {
    if !IsJsonRequest(req) then Ok(req)
    else
      var (body, req) := req.TakeBody();
      match Concat(body)
      case Err(_) => Err(BadPayload("Could not read request payload"))
      case Ok(chunk) =>
        if |chunk| == 0 then Err(BadPayload("Empty request body"))
        else Ok(req.Set(Extensions.Json(chunk)).0)
  }

  /** After the parser accepts a JSON request, `json()` decodes exactly the body
      that was sent: it never reports the JSON as missing. */
  lemma ParsedBodyDecodes<T>(req: Request, decode: string -> Result<T, string>)
    requires IsJsonRequest(req)
    requires BodyParser(req).Ok?
    ensures var body := Concat(req.TakeBody().0).value;
      BodyParser(req).value.Json(decode) == (if decode(body).Ok? then Ok(decode(body).value) else Err(JsonInvalid(decode(body).error)))
    ensures BodyParser(req).value.Json(decode) != Err(JsonMissing)
  {
  }

  /** Every answer of the parser is either the request or a 400. */
  lemma BodyParserOutcomes(req: Request)
    ensures BodyParser(req).Err? ==> BodyParser(req).error.Status() == 400
    ensures BodyParser(req).Ok? ==> BodyParser(req).value.headers == req.headers && BodyParser(req).value.uri == req.uri
  {
  }
}
