/** The `MultiPart` request middleware (src/contrib/multipart/mod.rs): check
    the declared upload size, find the multipart boundary in the Content-Type
    header, and let the form parser store the fields it read on the request.
    The parser itself (which streams file parts to disk) and the reading of
    the Content-Type parameters are parameters of the model. */
module MultiParts {
  import opened Wrappers
  import opened Http
  import opened Json
  import opened Requests
  import opened Responses
  import Convert
  import Extensions

  /** The middleware's configuration: accepted mime types, the size limit in
      bytes and the directory uploaded files are written to. */
  datatype MultiPart = MultiPart(mimes: Option<seq<string>>, sizeLimit: Option<nat>, dir: string)

  /** `MultiPart::new`. */
  function New(dir: string, mimes: Option<seq<string>>, sizeLimit: Option<nat>): (r: MultiPart)
    requires sizeLimit.Some? ==> sizeLimit.value < U64_LIMIT
    ensures r.dir == dir && r.mimes == mimes && r.sizeLimit == sizeLimit
  {
    MultiPart(mimes, sizeLimit, dir)
  }

  /** The errors the form parser reports. */
  datatype ParseError = Io | Regex | Hyper | InvalidMime

  /** The form parser: body, boundary, directory and accepted mimes to the
      fields read, or an error. */
  type FormParser = (Body, string, string, Option<seq<string>>) -> Result<map<string, string>, ParseError>

  /** `(code, message).into()`: the message as a JSON string under `code`. */
  function Refuse(code: nat, message: string): (r: Response)
    requires ValidStatus(code)
    ensures r.Status() == code && r.body == JsonOf(JString(message))
  {
    Convert.FromStatusJson(code, JString(message))
  }

  /** The size check: it applies only when the request declares a
      Content-Length and a limit is configured. */
  function SizeCheck(config: MultiPart, req: Request): (r: Option<Response>)
    ensures r.Some? ==> r.value.Status() == 400
    ensures (CONTENT_LENGTH !in req.headers || config.sizeLimit.None?) ==> r.None?
    ensures (CONTENT_LENGTH in req.headers && config.sizeLimit.Some? &&
             (HeaderToStr(req.headers[CONTENT_LENGTH]).None? || ParseU64(req.headers[CONTENT_LENGTH]).None?)) ==>
      r == Some(Refuse(400, "Invalid Content Length"))
    ensures (CONTENT_LENGTH in req.headers && config.sizeLimit.Some? &&
             HeaderToStr(req.headers[CONTENT_LENGTH]).Some? && ParseU64(req.headers[CONTENT_LENGTH]).Some?) ==>
      (r.Some? <==> ParseU64(req.headers[CONTENT_LENGTH]).value > config.sizeLimit.value)
  {
    if CONTENT_LENGTH in req.headers && config.sizeLimit.Some? then
      var limit := config.sizeLimit.value;
      var len := match HeaderToStr(req.headers[CONTENT_LENGTH])
                 case None => None
                 case Some(text) => ParseU64(text);
      match len
      case None => Some(Refuse(400, "Invalid Content Length"))
      case Some(n) =>
        if n > limit then Some(Refuse(400, "File upload limit " + Decimal(limit) + " Exceeded!"))
        else None
    else None
  }

  /** `MultiPart::call`, in the source's order: size check, Content-Type,
      boundary, then the form parser. A missing (or non-ASCII) Content-Type is
      refused with the message "Invalid Content Length", as the source has it. */
  function Call(config: MultiPart, parse: FormParser, boundaryOf: string -> Option<string>, req: Request): (r: Result<Request, Response>)
    ensures SizeCheck(config, req).Some? ==> r == Err(SizeCheck(config, req).value)
    ensures r.Err? ==> r.error.Status() in {400, 500}
    ensures r.Ok? ==> exists fields :: r.value.Get(Extensions.MultiPartMapType) == Some(Extensions.MultiPartMap(fields))
    ensures r.Ok? ==> r.value.BodyRef() == None && r.value.headers == req.headers
  {
    match SizeCheck(config, req)
    case Some(refusal) => Err(refusal)
    case None =>
      var contentType := if CONTENT_TYPE in req.headers then HeaderToStr(req.headers[CONTENT_TYPE]) else None;
      var (body, req) := req.TakeBody();
      match contentType
      case None => Err(Refuse(400, "Invalid Content Length"))
      case Some(ct) =>
        match boundaryOf(ct)
        case None => Err(Refuse(400, "Unspecified Boundary for Multipart"))
        case Some(boundary) =>
          match parse(body, boundary, config.dir, config.mimes)
          case Ok(fields) => Ok(req.Set(Extensions.MultiPartMap(fields)).0)
          case Err(InvalidMime) => Err(Refuse(400, "Invalid Content-Type"))
          case Err(_) => Err(Refuse(500, "internal server error"))
  }

  /** A declared length over the limit is refused before anything else runs,
      with a message naming the limit. */
  lemma OverLimitRefused(config: MultiPart, parse: FormParser, boundaryOf: string -> Option<string>, req: Request)
    requires config.sizeLimit.Some? && CONTENT_LENGTH in req.headers
    requires HeaderToStr(req.headers[CONTENT_LENGTH]).Some?
    requires ParseU64(req.headers[CONTENT_LENGTH]).Some?
    requires ParseU64(req.headers[CONTENT_LENGTH]).value > config.sizeLimit.value
    ensures Call(config, parse, boundaryOf, req) ==
      Err(Refuse(400, "File upload limit " + Decimal(config.sizeLimit.value) + " Exceeded!"))
  {
  }

  /** With a limit set, a Content-Length that is not header text or not a
      `u64` is refused with 400 "Invalid Content Length" before anything else runs. */
  lemma InvalidLengthRefused(config: MultiPart, parse: FormParser, boundaryOf: string -> Option<string>, req: Request)
    requires config.sizeLimit.Some? && CONTENT_LENGTH in req.headers
    requires HeaderToStr(req.headers[CONTENT_LENGTH]).None? || ParseU64(req.headers[CONTENT_LENGTH]).None?
    ensures Call(config, parse, boundaryOf, req) == Err(Refuse(400, "Invalid Content Length"))
  {
  }

  /** With a limit set and a Content-Length present, the size check refuses
      exactly when the length is unreadable or over the limit. */
  lemma SizeCheckRefusesExactly(config: MultiPart, req: Request)
    requires config.sizeLimit.Some? && CONTENT_LENGTH in req.headers
    ensures var v := req.headers[CONTENT_LENGTH];
      SizeCheck(config, req).Some? <==>
        (HeaderToStr(v).None? || ParseU64(v).None? || ParseU64(v).value > config.sizeLimit.value)
  {
  }

  /** A declared length written as `to_string()` writes it, within the limit,
      passes the size check. */
  lemma WithinLimitPasses(config: MultiPart, req: Request, n: nat)
    requires config.sizeLimit.Some? && n <= config.sizeLimit.value && n < U64_LIMIT
    requires CONTENT_LENGTH in req.headers && req.headers[CONTENT_LENGTH] == Decimal(n)
    ensures SizeCheck(config, req).None?
  {
    ParseDecimal(n);
    DecimalIsHeaderText(n);
  }

  /** Without a readable Content-Type, or without a boundary in it, the
      request is refused with 400 and the parser never runs. */
  lemma ContentTypeRefusals(config: MultiPart, parse: FormParser, boundaryOf: string -> Option<string>, req: Request)
    requires SizeCheck(config, req).None?
    ensures CONTENT_TYPE !in req.headers ==>
      Call(config, parse, boundaryOf, req) == Err(Refuse(400, "Invalid Content Length"))
    ensures CONTENT_TYPE in req.headers && HeaderToStr(req.headers[CONTENT_TYPE]).None? ==>
      Call(config, parse, boundaryOf, req) == Err(Refuse(400, "Invalid Content Length"))
    ensures CONTENT_TYPE in req.headers && HeaderToStr(req.headers[CONTENT_TYPE]).Some? && boundaryOf(req.headers[CONTENT_TYPE]).None? ==>
      Call(config, parse, boundaryOf, req) == Err(Refuse(400, "Unspecified Boundary for Multipart"))
  {
  }

  /** When the parser accepts the body, the request carries exactly the fields it read. */
  lemma ParsedFieldsStored(config: MultiPart, parse: FormParser, boundaryOf: string -> Option<string>, req: Request, boundary: string)
    requires SizeCheck(config, req).None?
    requires CONTENT_TYPE in req.headers && HeaderToStr(req.headers[CONTENT_TYPE]).Some?
    requires boundaryOf(req.headers[CONTENT_TYPE]) == Some(boundary)
    requires parse(req.TakeBody().0, boundary, config.dir, config.mimes).Ok?
    ensures Call(config, parse, boundaryOf, req).Ok?
    ensures Call(config, parse, boundaryOf, req).value.Get(Extensions.MultiPartMapType) ==
      Some(Extensions.MultiPartMap(parse(req.TakeBody().0, boundary, config.dir, config.mimes).value))
  {
  }

  /** Parser errors: a refused mime type is the client's fault (400), every
      other failure is the server's (500). */
  lemma ParseErrorsClassified(config: MultiPart, parse: FormParser, boundaryOf: string -> Option<string>, req: Request, boundary: string)
    requires SizeCheck(config, req).None?
    requires CONTENT_TYPE in req.headers && HeaderToStr(req.headers[CONTENT_TYPE]).Some?
    requires boundaryOf(req.headers[CONTENT_TYPE]) == Some(boundary)
    requires parse(req.TakeBody().0, boundary, config.dir, config.mimes).Err?
    ensures var e := parse(req.TakeBody().0, boundary, config.dir, config.mimes).error;
      Call(config, parse, boundaryOf, req) ==
        if e == InvalidMime then Err(Refuse(400, "Invalid Content-Type")) else Err(Refuse(500, "internal server error"))
  {
  }
}
