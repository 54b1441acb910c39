/** JSON without its syntax. */
module JsonValues {
  /** A JSON document, taken as a value: printing and parsing it are inverse to each other. */
  datatype Json =
    | JNull
    | JBool(b: bool)
    | JNumber(n: int)
    | JString(s: string)
    | JArray(items: seq<Json>)
    | JObject(fields: map<string, Json>)
}
