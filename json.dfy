/** The JSON values the pipeline reads. Decoding text into such a value
    (`JSON.parse`) is not modelled: it is a parameter of every operation
    that needs it. */
module Json {
  import opened Common

  datatype JsonValue =
    | JNull
    | JBool(b: bool)
    | JNumber(n: real)
    | JString(str: string)
    | JArray(elements: seq<JsonValue>)
    | JObject(members: map<string, JsonValue>)

  /** `JSON.parse`: the decoded value, or `None` where it throws. */
  type Decoder = string -> Option<JsonValue>

  /** The property read `v[key]`: an object's own member, `undefined` on any
      other value (reading a property of `null` throws instead, which every
      caller catches and handles exactly like `undefined`). */
  function Member(v: JsonValue, key: string): Option<JsonValue>
  {
    if v.JObject? && key in v.members then Some(v.members[key]) else None
  }
}
