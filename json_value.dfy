/** The value a JSON decoder produces. Decoding itself is a foreign call and
    is not modelled: wherever text is decoded, the decoded value (or its
    absence) is an input. */
module JsonValue {

  datatype Json =
    | JNull
    | JBool(b: bool)
    | JNumber(literal: string)
    | JString(s: string)
    | JArray(items: seq<Json>)
    | JObject(fields: map<string, Json>)
}
