/** The values `JSON.parse` can produce, and the JavaScript truthiness and
    property access the source applies to them. */
module Json {
  import opened Wrappers

  /** A parsed JSON document. Numbers are kept integral: the model only
      compares them with zero. */
  datatype Json =
    | JNull
    | JBool(b: bool)
    | JNumber(n: int)
    | JString(s: string)
    | JArray(items: seq<Json>)
    | JObject(fields: map<string, Json>)

  /** JavaScript truthiness of a parsed value: `null`, `false`, `0` and `""`
      are falsy; every array and object is truthy, even an empty one. */
  predicate Truthy(j: Json) {
    match j
    case JNull => false
    case JBool(b) => b
    case JNumber(n) => n != 0
    case JString(s) => s != ""
    case JArray(_) => true
    case JObject(_) => true
  }

  /** What `j.key` evaluates to. */
  datatype Lookup = TypeError | Undefined | Found(value: Json)

  /** `j.key` for a key that is not a member of `Object.prototype` (such as
      `likelyMeme`): reading a property of `null` throws a TypeError, an object
      yields its own field or `undefined`, and every other value `undefined`. */
  function Property(j: Json, key: string): (r: Lookup)
    ensures r == TypeError <==> j == JNull
    ensures r.Found? <==> j.JObject? && key in j.fields
    ensures r.Found? ==> r.value == j.fields[key]
  {
    match j
    case JNull => TypeError
    case JObject(m) => if key in m then Found(m[key]) else Undefined
    case _ => Undefined
  }
}
