/** JSON values as request bodies, query strings and error details carry them. */
module Json {
  datatype Json =
    | JNull
    | JBool(b: bool)
    | JNumber(n: real)
    | JString(s: string)
    | JArray(items: seq<Json>)
    | JObject(fields: map<string, Json>)

  /** JavaScript's Number.isInteger on a finite number. */
  predicate IsInteger(n: real) {
    n == n.Floor as real
  }
}
