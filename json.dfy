/**
 * The JSON-like values a client may send as the `arguments` of a tool call.
 * JavaScript's `undefined` is not a JSON value; an absent object member is
 * represented by the key being missing from the map.
 */
module Json {

  datatype Json =
    | JNull
    | JBool(b: bool)
    | JNumber(n: real)
    | JString(str: string)
    | JArray(items: seq<Json>)
    | JObject(members: map<string, Json>)

  /** The type names a validator reports as "received"; Undefined stands for a missing member. */
  datatype JsonType = Undefined | Null | Boolean | Number | String | Array | Object

  function TypeOf(j: Json): (t: JsonType)
    ensures t != Undefined
    ensures t == Object <==> j.JObject?
    ensures t == String <==> j.JString?
    ensures t == Boolean <==> j.JBool?
  {
    match j
    case JNull => Null
    case JBool(_) => Boolean
    case JNumber(_) => Number
    case JString(_) => String
    case JArray(_) => Array
    case JObject(_) => Object
  }
}
