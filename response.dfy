/** The response envelope (src/core/response.rs): hyper's `Parts` plus a body.
    Builders and setters are modelled as functions returning the new response. */
module Responses {
  import opened Wrappers
  import opened Http
  import Extensions
  import opened Json

  /** A response body: raw bytes, or the serialisation of a JSON value
      (serde_json's encoding is not modelled). */
  datatype Payload = Bytes(data: string) | JsonOf(value: JsonValue)

  datatype Parts = Parts(status: nat, version: Version, headers: Headers, extensions: Extensions.Bag)

  /** The error kinds `with_file` distinguishes. */
  datatype IoErrorKind = NotFound | PermissionDenied | OtherIoError

  datatype Response = Response(parts: Parts, body: Payload)
  {
    /** `Response::default()` / `Response::new()`: hyper's default response. */
    static function Default(): (r: Response)
      ensures r.Status() == 200
      ensures r.body == Bytes("")
      ensures r.parts.headers == map[]
      ensures forall t :: r.Get(t) == None
    {
      Response(Parts(200, Http11, map[], map[]), Bytes(""))
    }

    function Status(): nat {
      parts.status
    }

    /** `with_status(code)` and `set_status(code)`; an invalid code panics. */
    function WithStatus(code: nat): (r: Response)
      requires ValidStatus(code)
      ensures r.Status() == code
      ensures r.body == body && r.parts.headers == parts.headers
      ensures r.parts.extensions == parts.extensions && r.parts.version == parts.version
    {
      this.(parts := parts.(status := code))
    }

    /** `text(s)` and `with_text(s)`: the body becomes `s` and Content-Length
        its length in bytes (one byte per character in this model). */
    function Text(s: string): (r: Response)
      ensures r.body == Bytes(s)
      ensures CONTENT_LENGTH in r.parts.headers && r.parts.headers[CONTENT_LENGTH] == Decimal(|s|)
      ensures |s| < U64_LIMIT ==> ParseU64(r.parts.headers[CONTENT_LENGTH]) == Some(|s|)
      ensures forall h :: h != CONTENT_LENGTH ==> (h in r.parts.headers <==> h in parts.headers)
      ensures forall h :: h != CONTENT_LENGTH && h in parts.headers ==> r.parts.headers[h] == parts.headers[h]
      ensures r.Status() == Status() && r.parts.extensions == parts.extensions && r.parts.version == parts.version
    {
      assert |s| < U64_LIMIT ==> ParseU64(Decimal(|s|)) == Some(|s|) by {
        if |s| < U64_LIMIT { ParseDecimal(|s|); }
      }
      Response(parts.(headers := parts.headers[CONTENT_LENGTH := Decimal(|s|)]), Bytes(s))
    }

    /** `with_body(b)` and `set_body(b)`: only the body changes. */
    function WithBody(b: Payload): (r: Response)
      ensures r.body == b && r.parts == parts
    {
      this.(body := b)
    }

    /** `redirect(url)`: status 301 and a Location header. `from_static`
        panics on a url that is not valid header text. */
    function Redirect(url: string): (r: Response)
      requires forall i :: 0 <= i < |url| ==> VisibleAscii(url[i])
      ensures r.Status() == 301
      ensures LOCATION in r.parts.headers && r.parts.headers[LOCATION] == url
      ensures forall h :: h != LOCATION ==> (h in r.parts.headers <==> h in parts.headers)
      ensures forall h :: h != LOCATION && h in parts.headers ==> r.parts.headers[h] == parts.headers[h]
      ensures r.body == body && r.parts.extensions == parts.extensions && r.parts.version == parts.version
    {
      WithStatus(301).(parts := WithStatus(301).parts.(headers := parts.headers[LOCATION := url]))
    }

    function Unauthorized(): (r: Response)
      ensures r.Status() == 401 && r.body == body && r.parts.headers == parts.headers
      ensures r.parts.extensions == parts.extensions && r.parts.version == parts.version
    {
      WithStatus(401)
    }

    function BadRequest(): (r: Response)
      ensures r.Status() == 400 && r.body == body && r.parts.headers == parts.headers
      ensures r.parts.extensions == parts.extensions && r.parts.version == parts.version
    {
      WithStatus(400)
    }

    function Forbidden(): (r: Response)
      ensures r.Status() == 403 && r.body == body && r.parts.headers == parts.headers
      ensures r.parts.extensions == parts.extensions && r.parts.version == parts.version
    {
      WithStatus(403)
    }

    function MethodNotAllowed(): (r: Response)
      ensures r.Status() == 405 && r.body == body && r.parts.headers == parts.headers
      ensures r.parts.extensions == parts.extensions && r.parts.version == parts.version
    {
      WithStatus(405)
    }

    function NotAcceptable(): (r: Response)
      ensures r.Status() == 406 && r.body == body && r.parts.headers == parts.headers
      ensures r.parts.extensions == parts.extensions && r.parts.version == parts.version
    {
      WithStatus(406)
    }

    function RequestTimeout(): (r: Response)
      ensures r.Status() == 408 && r.body == body && r.parts.headers == parts.headers
      ensures r.parts.extensions == parts.extensions && r.parts.version == parts.version
    {
      WithStatus(408)
    }

    function InternalServerError(): (r: Response)
      ensures r.Status() == 500 && r.body == body && r.parts.headers == parts.headers
      ensures r.parts.extensions == parts.extensions && r.parts.version == parts.version
    {
      WithStatus(500)
    }

    function BadGateway(): (r: Response)
      ensures r.Status() == 502 && r.body == body && r.parts.headers == parts.headers
      ensures r.parts.extensions == parts.extensions && r.parts.version == parts.version
    {
      WithStatus(502)
    }

    function ServiceUnavailable(): (r: Response)
      ensures r.Status() == 503 && r.body == body && r.parts.headers == parts.headers
      ensures r.parts.extensions == parts.extensions && r.parts.version == parts.version
    {
      WithStatus(503)
    }

    /** `get::<T>()` on the response extensions. */
    function Get(t: Extensions.TypeTag): Option<Extensions.Extension> {
      Extensions.Get(parts.extensions, t)
    }

    /** `set::<T>(v)`: the updated response and the previous value of that type. */
    function Set(v: Extensions.Extension): (r: (Response, Option<Extensions.Extension>))
      ensures r.1 == Get(Extensions.TypeOf(v))
      ensures r.0.Get(Extensions.TypeOf(v)) == Some(v)
      ensures forall t :: t != Extensions.TypeOf(v) ==> r.0.Get(t) == Get(t)
      ensures r.0.body == body && r.0.Status() == Status() && r.0.parts.headers == parts.headers
      ensures r.0.parts.version == parts.version
    {
      var (bag, previous) := Extensions.Insert(parts.extensions, v);
      (this.(parts := parts.(extensions := bag)), previous)
    }

    /** `remove::<T>()`: the updated response and the value it held. */
    function Remove(t: Extensions.TypeTag): (r: (Response, Option<Extensions.Extension>))
      ensures r.1 == Get(t)
      ensures r.0.Get(t) == None
      ensures forall u :: u != t ==> r.0.Get(u) == Get(u)
      ensures r.0.body == body && r.0.Status() == Status() && r.0.parts.headers == parts.headers
      ensures r.0.parts.version == parts.version
    {
      var (bag, previous) := Extensions.Remove(parts.extensions, t);
      (this.(parts := parts.(extensions := bag)), previous)
    }

    /** The error branch of `with_file`: a missing file gives 404, any other
        open or metadata error 500, always as an early (`Err`) response. */
    function WithFileError(kind: IoErrorKind): (r: Result<Response, Response>)
      ensures r.Err?
      ensures r.error.Status() == (if kind == NotFound then 404 else 500)
      ensures r.error.body == body && r.error.parts.headers == parts.headers
      ensures r.error.parts.extensions == parts.extensions && r.error.parts.version == parts.version
    {
      match kind
      case NotFound => Err(WithStatus(404))
      case _ => Err(WithStatus(500))
    }
  }

  /** A client reading the Location header of a redirect gets the url back. */
  lemma RedirectLocationReadable(r: Response, url: string)
    requires forall i :: 0 <= i < |url| ==> VisibleAscii(url[i])
    ensures HeaderToStr(r.Redirect(url).parts.headers[LOCATION]) == Some(url)
  {
  }

  /** Setting a status twice keeps only the last one. */
  lemma WithStatusLastWins(r: Response, a: nat, b: nat)
    requires ValidStatus(a) && ValidStatus(b)
    ensures r.WithStatus(a).WithStatus(b) == r.WithStatus(b)
  {
  }
}
