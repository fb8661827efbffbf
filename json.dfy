/** JSON values as the framework hands them to serde. Serialisation itself is
    serde_json's and is not modelled: a body holds the value it serialises. */
module Json {

  datatype JsonValue =
    | JNull
    | JBool(b: bool)
    | JNumber(n: int)
    | JString(s: string)
    | JArray(items: seq<JsonValue>)
    | JObject(fields: seq<(string, JsonValue)>)

  /** The `{"error": message}` object every error response of the core carries. */
  function ErrorObject(message: string): JsonValue {
    JObject([("error", JString(message))])
  }
}
