/** Decoded JSON values as the client sees them after parsing a response body. */
module Json {

  /** A JSON value. Floating-point numbers are not modelled. */
  datatype Json =
    | JNull
    | JBool(b: bool)
    | JInt(n: int)
    | JStr(s: string)
    | JArr(items: seq<Json>)
    | JObj(fields: map<string, Json>)

  /** One top-level JSON object found in a response body; it may carry an
      `"error"` key, a `"response"` key, both, or neither. */
  type Envelope = map<string, Json>
}
