/** The request envelope (src/core/request.rs). A request is owned and moved
    from stage to stage; its `&mut self` setters are modelled as functions that
    return the updated envelope. */
module Requests {
  import opened Wrappers
  import opened Http
  import Extensions

  /** A hyper body stream, described by the bytes a full read yields and by
      whether reading it fails. */
  datatype Body = Body(data: string, readFails: bool)

  /** `Body::default()`: the empty body. */
  const EmptyBody: Body := Body("", false)

  /** `concat2()`: read the whole stream. */
  function Concat(b: Body): (r: Result<string, ()>)
    ensures r.Ok? <==> !b.readFails
    ensures r.Ok? ==> r.value == b.data
  {
    if b.readFails then Err(()) else Ok(b.data)
  }

  /** Why `json()` failed: nothing was stored, or serde rejected the bytes. */
  datatype JsonError = JsonMissing | JsonInvalid(message: string)

  /** Why `query()` failed: serde_qs rejected the query, or there was none. */
  datatype QueryParseError = QueryInvalid(message: string) | QueryMissing

  /** The remote socket address, as text. */
  type SocketAddr = string

  datatype Request = Request(
    httpMethod: Method,
    uri: Uri,
    version: Version,
    headers: Headers,
    body: Option<Body>,
    remote: Option<SocketAddr>,
    extensions: Extensions.Bag)
  {
    /** `Request::new`: the body is present, no remote address, an empty bag. */
    static function New(httpMethod: Method, uri: Uri, version: Version, headers: Headers, body: Body): (r: Request)
      ensures r.BodyRef() == Some(body)
      ensures r.remote == None
      ensures forall t :: r.Get(t) == None
      ensures r.httpMethod == httpMethod && r.uri == uri && r.version == version && r.headers == headers
    {
      Request(httpMethod, uri, version, headers, Some(body), None, map[])
    }

    /** `path()`: the URI path only, never the query. */
    function Path(): string {
      uri.path
    }

    /** `body()`: hand out the body and leave the slot empty; a body already
        taken reads as the empty default body. */
    function TakeBody(): (r: (Body, Request))
      ensures r.1.BodyRef() == None
      ensures body.Some? ==> r.0 == body.value
      ensures body.None? ==> r.0 == EmptyBody
      ensures r.1.httpMethod == httpMethod && r.1.uri == uri && r.1.headers == headers
      ensures r.1.remote == remote && r.1.extensions == extensions && r.1.version == version
    {
      match body
      case Some(b) => (b, this.(body := None))
      case None => (EmptyBody, this)
    }

    /** `body_ref()`. */
    function BodyRef(): Option<Body> {
      body
    }

    /** `set_body(b)`. */
    function SetBody(b: Body): (r: Request)
      ensures r.BodyRef() == Some(b)
      ensures r.(body := body) == this
    {
      this.(body := Some(b))
    }

    /** `get::<T>()`. */
    function Get(t: Extensions.TypeTag): Option<Extensions.Extension> {
      Extensions.Get(extensions, t)
    }

    /** `set::<T>(v)`: the updated request and the previous value of that type. */
    function Set(v: Extensions.Extension): (r: (Request, Option<Extensions.Extension>))
      ensures r.1 == Get(Extensions.TypeOf(v))
      ensures r.0.Get(Extensions.TypeOf(v)) == Some(v)
      ensures forall t :: t != Extensions.TypeOf(v) ==> r.0.Get(t) == Get(t)
      ensures r.0.(extensions := extensions) == this
    {
      var (bag, previous) := Extensions.Insert(extensions, v);
      (this.(extensions := bag), previous)
    }

    /** `remove::<T>()`: the updated request and the value it held. */
    function Remove(t: Extensions.TypeTag): (r: (Request, Option<Extensions.Extension>))
      ensures r.1 == Get(t)
      ensures r.0.Get(t) == None
      ensures forall u :: u != t ==> r.0.Get(u) == Get(u)
      ensures r.0.(extensions := extensions) == this
    {
      var (bag, previous) := Extensions.Remove(extensions, t);
      (this.(extensions := bag), previous)
    }

    /** `params()`: the `Params` entry of the bag. */
    function Params(): (r: Option<map<string, string>>)
      ensures r.Some? <==> Get(Extensions.ParamsType).Some? && Get(Extensions.ParamsType).value.Params?
      ensures r.Some? ==> Get(Extensions.ParamsType) == Some(Extensions.Params(r.value))
    {
      match Get(Extensions.ParamsType)
      case Some(Params(p)) => Some(p)
      case _ => None
    }

    /** `json()`: deserialise the stored `Json` chunk; `decode` stands for serde. */
    function Json<T>(decode: string -> Result<T, string>): (r: Result<T, JsonError>)
      ensures r == Err(JsonMissing) <==> !(Get(Extensions.JsonType).Some? && Get(Extensions.JsonType).value.Json?)
    {
      match Get(Extensions.JsonType)
      case Some(Json(chunk)) =>
        (match decode(chunk)
         case Ok(v) => Ok(v)
         case Err(m) => Err(JsonInvalid(m)))
      case _ => Err(JsonMissing)
    }

    /** `query()`: deserialise the query string; `decode` stands for the
        percent-decoding and serde_qs steps. */
    function Query<T>(decode: string -> Result<T, string>): (r: Result<T, QueryParseError>)
      ensures r == Err(QueryMissing) <==> uri.query.None?
      ensures uri.query.Some? ==> (decode(uri.query.value).Ok? <==> r.Ok?)
    {
      match uri.query
      case None => Err(QueryMissing)
      case Some(q) =>
        (match decode(q)
         case Ok(v) => Ok(v)
         case Err(m) => Err(QueryInvalid(m)))
    }

    /** `deconstruct()`: the parts, with the default body if it was taken. */
    function Deconstruct(): (r: (Method, Uri, Version, Headers, Body))
      ensures r.4 == TakeBody().0
      ensures r.0 == httpMethod && r.1 == uri && r.2 == version && r.3 == headers
    {
      (httpMethod, uri, version, headers, if body.Some? then body.value else EmptyBody)
    }
  }

  /** The body is one-shot: a second `body()` yields the empty default body. */
  lemma TakeBodyTwice(r: Request)
    ensures r.TakeBody().1.TakeBody().0 == EmptyBody
    ensures r.TakeBody().1.BodyRef() == None
  {
  }

  /** `set_body` then `body()` hands back exactly what was set. */
  lemma SetBodyThenTake(r: Request, b: Body)
    ensures r.SetBody(b).TakeBody().0 == b
    ensures r.SetBody(b).TakeBody().1 == r.TakeBody().1
  {
  }
}
