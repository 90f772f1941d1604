/**
 * The values `json.loads` produces. The decoder itself is not part of this
 * model: callers receive its outcome as a `ParseResult`.
 */
module JsonValue {

  /**
   * A decoded JSON document. Numbers keep their literal text (they are only
   * passed around, never computed with); objects are Python dicts, so a
   * repeated key keeps its last value and membership is by key.
   */
  datatype Json =
    | JNull
    | JBool(b: bool)
    | JNumber(literal: string)
    | JString(s: string)
    | JArray(items: seq<Json>)
    | JObject(fields: map<string, Json>)

  /** `json.loads` either raises `JSONDecodeError` with a message or returns a value. */
  datatype ParseResult = DecodeError(message: string) | Parsed(value: Json)
}
