/**
 * Values that `JSON.parse` can produce, and JavaScript property access on them.
 * The grammar of JSON text is not modelled: parsing is a parameter of the
 * handler (a total function from text to an optional value, `None` standing
 * for a thrown `SyntaxError`).
 */
module JsonValues {
  import opened Wrappers

  datatype Json =
    | JNull
    | JBool(b: bool)
    | JNumber(n: real)
    | JString(s: string)
    | JArray(items: seq<Json>)
    | JObject(members: map<string, Json>)

  /**
   * `value.key` for a parsed value other than `null` (on `null` the access
   * throws a `TypeError`, which callers handle), for keys that no prototype
   * of a parsed value defines, such as `type` and `model`: an object's own
   * member, and `undefined` on numbers, strings, booleans and arrays.
   * Inherited names (`length`, `toString`, ...) are not modelled.
   */
  function Property(value: Json, key: string): (r: Option<Json>)
    requires value != JNull
    ensures r.Some? <==> value.JObject? && key in value.members
    ensures r.Some? ==> r.value == value.members[key]
  {
    if value.JObject? && key in value.members then Some(value.members[key]) else None
  }
}
