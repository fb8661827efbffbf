/** The type-indexed extension bag (`AnyMap` on the request, `http::Extensions`
    on the response): at most one value per type, looked up by its type. */
module Extensions {
  import opened Wrappers

  /** The types the core stores, plus any user type named by its type name. */
  datatype TypeTag = ParamsType | JsonType | MultiPartMapType | UserType(name: string)

  /** A value in the bag. `Params` is route_recognizer's captured parameters,
      `Json` the body chunk the body parser keeps, `MultiPartMap` the
      multipart form fields; `User` stands for any other type. */
  datatype Extension =
    | Params(params: map<string, string>)
    | Json(chunk: string)
    | MultiPartMap(fields: map<string, string>)
    | User(name: string, payload: string)

  function TypeOf(e: Extension): TypeTag {
    match e
    case Params(_) => ParamsType
    case Json(_) => JsonType
    case MultiPartMap(_) => MultiPartMapType
    case User(name, _) => UserType(name)
  }

  type Bag = map<TypeTag, Extension>

  /** Every entry is stored under its own type. */
  predicate WellTyped(bag: Bag) {
    forall t :: t in bag ==> TypeOf(bag[t]) == t
  }

  /** `get::<T>()`. */
  function Get(bag: Bag, t: TypeTag): (r: Option<Extension>)
    ensures r.Some? <==> t in bag
    ensures WellTyped(bag) && r.Some? ==> TypeOf(r.value) == t
  {
    if t in bag then Some(bag[t]) else None
  }

  /** `insert::<T>(v)`: the new bag and the value of that type it replaced. */
  function Insert(bag: Bag, v: Extension): (r: (Bag, Option<Extension>))
    ensures r.1 == Get(bag, TypeOf(v))
    ensures Get(r.0, TypeOf(v)) == Some(v)
    ensures forall t :: t != TypeOf(v) ==> Get(r.0, t) == Get(bag, t)
    ensures WellTyped(bag) ==> WellTyped(r.0)
  {
    (bag[TypeOf(v) := v], Get(bag, TypeOf(v)))
  }

  /** `remove::<T>()`: the new bag and the value of that type it held. */
  function Remove(bag: Bag, t: TypeTag): (r: (Bag, Option<Extension>))
    ensures r.1 == Get(bag, t)
    ensures Get(r.0, t) == None
    ensures forall u :: u != t ==> Get(r.0, u) == Get(bag, u)
    ensures WellTyped(bag) ==> WellTyped(r.0)
  {
    (bag - {t}, Get(bag, t))
  }

  /** Removing what was just inserted into a bag without that type gives the bag back. */
  lemma InsertThenRemove(bag: Bag, v: Extension)
    requires TypeOf(v) !in bag
    ensures Remove(Insert(bag, v).0, TypeOf(v)) == (bag, Some(v))
  {
    assert Insert(bag, v).0 - {TypeOf(v)} == bag;
  }

  /** Inserting a value that is already stored changes nothing and hands it back. */
  lemma InsertStored(bag: Bag, v: Extension)
    requires Get(bag, TypeOf(v)) == Some(v)
    ensures Insert(bag, v) == (bag, Some(v))
  {
    assert bag[TypeOf(v) := v] == bag;
  }
}
