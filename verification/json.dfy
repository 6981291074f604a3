/** Decoded JSON documents, as Pydantic and Synapse see them after parsing. */
module Json {
  import opened Wrappers

  /** A decoded JSON value. Objects are dictionaries, so their keys are unique. */
  datatype Json =
    | JNull
    | JBool(b: bool)
    | JInt(i: int)
    | JStr(s: string)
    | JArray(items: seq<Json>)
    | JObject(fields: map<string, Json>)

  /** The empty JSON object `{}`. */
  const EmptyObject: Json := JObject(map[])

  /** Python's truthiness of a decoded JSON value (`if value:`). */
  predicate Truthy(j: Json)
  {
    match j
    case JNull => false
    case JBool(b) => b
    case JInt(i) => i != 0
    case JStr(s) => s != []
    case JArray(items) => items != []
    case JObject(fields) => fields != map[]
  }
}
