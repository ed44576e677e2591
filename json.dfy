/** JSON values as the route reads them from a request body or a stored `parts` column. */
module Json {

  /** A JSON value. Numbers are kept as reals; object keys map to values. */
  datatype Json =
    | JNull
    | JBool(b: bool)
    | JNum(n: real)
    | JStr(s: string)
    | JArr(items: seq<Json>)
    | JObj(fields: map<string, Json>)

  /** JavaScript truthiness of a value decoded from JSON: `null`, `false`, `0` and `""`
      are falsy, every array and object is truthy. (JSON cannot encode NaN or undefined.) */
  predicate Truthy(j: Json) {
    match j
    case JNull => false
    case JBool(b) => b
    case JNum(n) => n != 0.0
    case JStr(s) => s != ""
    case JArr(_) => true
    case JObj(_) => true
  }
}
