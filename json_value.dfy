/** Decoded JSON values, as the Python code receives them from `json.loads` or a request body. */
module JsonValue {
  datatype Json =
    | JNull
    | JBool(b: bool)
    | JNum(x: real)
    | JStr(s: string)
    | JList(items: seq<Json>)
    | JDict(fields: map<string, Json>)

  /** Python truthiness: None, False, 0, "" and empty containers are false. */
  predicate Truthy(v: Json)
  {
    match v
    case JNull => false
    case JBool(b) => b
    case JNum(x) => x != 0.0
    case JStr(s) => s != []
    case JList(items) => items != []
    case JDict(fields) => fields != map[]
  }
}
