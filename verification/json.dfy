/** The values a JSON decoder produces and the JavaScript truthiness of each. */
module Json {

  datatype JsonValue =
    | JNull
    | JBool(b: bool)
    | JNumber(n: real)
    | JString(s: string)
    | JArray(items: seq<JsonValue>)
    | JObject(members: map<string, JsonValue>)

  /** A decoded JSON object. */
  type JsonObject = map<string, JsonValue>

  /** JavaScript truthiness: `null`, `false`, `0` and `""` are falsy, everything else is truthy. */
  predicate Truthy(v: JsonValue) {
    match v
    case JNull => false
    case JBool(b) => b
    case JNumber(n) => n != 0.0
    case JString(s) => s != ""
    case JArray(_) => true
    case JObject(_) => true
  }

  /** `obj.key || ''`: the member when it is present and truthy, otherwise the empty string. */
  function MemberOrEmpty(obj: JsonObject, key: string): (r: JsonValue)
    ensures Truthy(r) ==> key in obj && r == obj[key]
    ensures !Truthy(r) ==> r == JString("")
    ensures key in obj && Truthy(obj[key]) ==> r == obj[key]
  {
    if key in obj && Truthy(obj[key]) then obj[key] else JString("")
  }
}
