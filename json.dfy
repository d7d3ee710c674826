/** JSON values (RFC 8259), the shape of serde_json::Value. Parsing and printing are
    foreign code and enter the model only as parameters of type `string -> Option<Json>`. */
module JsonValues {
  datatype Json =
    | JNull
    | JBool(b: bool)
    | JNumber(n: real)
    | JString(s: string)
    | JArray(items: seq<Json>)
    | JObject(fields: map<string, Json>)
}
