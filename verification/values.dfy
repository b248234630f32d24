/** Values that cross the transport boundary: decoded JSON documents, the
    container type a caller expects back, and the dictionaries handed to the
    transport as query parameters or request bodies. */
module Values {

  datatype Option<+T> = None | Some(value: T)

  /** A decoded JSON document. Numbers are integers: floating point is not
      part of the model. */
  datatype Json =
    | JNull
    | JBool(b: bool)
    | JNumber(n: int)
    | JString(s: string)
    | JArray(items: seq<Json>)
    | JObject(fields: map<string, Json>)

  /** The Python type passed as `expected`: `dict` or `list`. */
  datatype Shape = Dict | List

  /** `isinstance(value, expected)` for a decoded JSON value. */
  predicate HasShape(value: Json, expected: Shape) {
    match expected
    case Dict => value.JObject?
    case List => value.JArray?
  }

  /** `expected()`: a new, empty instance of the expected type. */
  function EmptyOf(expected: Shape): (e: Json)
    ensures HasShape(e, expected)
    ensures e == JObject(map[]) || e == JArray([])
  {
    match expected
    case Dict => JObject(map[])
    case List => JArray([])
  }

  /** A query-parameter or JSON-body dictionary; values are kept as strings. */
  type Payload = map<string, string>
}
