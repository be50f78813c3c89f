/**
 * JSON documents as the handler sees them after `json.loads`, and the result
 * of that parse. The parser itself is not modelled: the platform supplies a
 * parse oracle of type `string -> Parsed`.
 */
module Json {

  /** A decoded JSON value; numbers are kept as their literal text. */
  datatype Json =
    | JNull
    | JBool(b: bool)
    | JNumber(literal: string)
    | JString(s: string)
    | JArray(items: seq<Json>)
    | JObject(fields: map<string, Json>)

  /** `json.loads(text)`: either a `JSONDecodeError` or the decoded value. */
  datatype Parsed = Invalid | Valid(doc: Json)
}
