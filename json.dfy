/** Decoded JSON, as the source receives it from `response.json()` and from
    decoded JWT payloads. Numbers are modelled as integers. */
module Json {
  import opened Wrappers

  datatype JsonValue =
    | JNull
    | JBool(b: bool)
    | JNum(n: int)
    | JStr(s: string)
    | JArray(items: seq<JsonValue>)
    | JObject(fields: map<string, JsonValue>)

  /** An object's properties; a missing key reads as `undefined`. */
  type Fields = map<string, JsonValue>

  function Get(fields: Fields, key: string): Option<JsonValue> {
    if key in fields then Some(fields[key]) else None
  }

  /** `obj[key] as string` where the value is used only when it is a string. */
  function GetText(fields: Fields, key: string): Option<string> {
    if key in fields && fields[key].JStr? then Some(fields[key].s) else None
  }
}
