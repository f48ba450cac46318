/**
 * The values `JSON.parse` produces and the few JavaScript operations the
 * application applies to them: property access, truthiness, `??` and object
 * spread. `JSON.parse` itself is not defined here: wherever the source parses
 * text, the model takes the parser as a parameter `string -> Option<Json>`.
 */
module JsonValue {
  import opened Wrappers
  import opened Strings

  /** A parsed JSON value. Numbers are integers in this model. */
  datatype Json =
    | JNull
    | JBool(b: bool)
    | JNum(n: int)
    | JStr(s: string)
    | JArr(items: seq<Json>)
    | JObj(fields: map<string, Json>)

  /**
   * `v.k` (and `v?.k`) for a property name `k` that is neither an array index
   * nor "length": only an object has such a property; on anything else the
   * result is `undefined`, here `None`.
   */
  function Field(v: Json, k: string): (r: Option<Json>)
    ensures r.Some? <==> v.JObj? && k in v.fields
  {
    if v.JObj? && k in v.fields then Some(v.fields[k]) else None
  }

  /** `v?.k` where `v` may itself be `undefined`. */
  function FieldOf(v: Option<Json>, k: string): Option<Json> {
    if v.None? then None else Field(v.value, k)
  }

  /** JavaScript truthiness of a JSON value. */
  predicate Truthy(v: Json) {
    match v
    case JNull => false
    case JBool(b) => b
    case JNum(n) => n != 0
    case JStr(s) => s != ""
    case JArr(_) => true
    case JObj(_) => true
  }

  /** `v` is `undefined` or `null`, the two values `??` skips. */
  predicate Nullish(v: Option<Json>) {
    v.None? || v.value == JNull
  }

  /** `a ?? b`. */
  function Coalesce(a: Option<Json>, b: Json): (r: Json)
    ensures !Nullish(a) ==> r == a.value
    ensures Nullish(a) ==> r == b
  {
    if Nullish(a) then b else a.value
  }

  /** The properties `{ ...xs }` copies from an array or a string: one per index. */
  function IndexMap(xs: seq<Json>): (m: map<string, Json>)
    ensures |xs| > 0 ==> NatToString(|xs| - 1) in m && m[NatToString(|xs| - 1)] == xs[|xs| - 1]
    ensures forall k :: k in m ==> |k| >= 1 && '0' <= k[0] <= '9'
  {
    if |xs| == 0 then map[]
    else IndexMap(xs[..|xs| - 1])[NatToString(|xs| - 1) := xs[|xs| - 1]]
  }

  /**
   * The own enumerable properties that object spread `{ ...v }` copies:
   * an object's fields, an array's elements or a string's characters under
   * their decimal indices, and nothing for null, booleans and numbers.
   */
  function Spread(v: Json): map<string, Json> {
    match v
    case JObj(m) => m
    case JArr(items) => IndexMap(items)
    case JStr(s) => IndexMap(seq(|s|, i requires 0 <= i < |s| => JStr([s[i]])))
    case _ => map[]
  }

  function SpreadOf(v: Option<Json>): map<string, Json> {
    if v.None? then map[] else Spread(v.value)
  }

  /**
   * `String(v) === ''`: only the empty string, the empty array and arrays
   * whose single element is null or itself renders as empty.
   */
  predicate RendersEmpty(v: Json) {
    match v
    case JStr(s) => s == ""
    case JArr(items) =>
      |items| == 0 || (|items| == 1 && (items[0] == JNull || RendersEmpty(items[0])))
    case _ => false
  }
}
