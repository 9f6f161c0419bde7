/** The JSON values exchanged with the backend, as JavaScript objects
    (not yet text): a number may still be NaN. */
module Json {
  import opened JsText

  datatype Json = JNull | JBool(b: bool) | JNum(n: JsNum) | JStr(s: string)

  /** A JSON object; an absent key reads as `undefined`. */
  type JsonObject = map<string, Json>
}
