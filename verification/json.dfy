/** JSON values as the client sees them after Faraday parses a response body
    with symbolised keys. Ruby `nil` is `JNull`; numbers are integers.
 */
module JsonData {
  import Text

  datatype Json =
    | JNull
    | JBool(b: bool)
    | JNum(n: int)
    | JStr(s: string)
    | JArr(items: seq<Json>)
    | JObj(fields: map<string, Json>)

  /** Ruby truthiness: everything except `nil` and `false`. */
  predicate Truthy(j: Json) {
    !j.JNull? && j != JBool(false)
  }

  /** `hash[key]` on an object: the value, or `nil` when the key is absent. */
  function Get(j: Json, key: string): (v: Json)
    requires j.JObj?
    ensures key in j.fields ==> v == j.fields[key]
    ensures key !in j.fields ==> v == JNull
  {
    if key in j.fields then j.fields[key] else JNull
  }

  /** `(x || {})` followed by `return unless x.is_a? Hash`: the entries of an
      object, and no entries for anything else. */
  function Entries(j: Json): (m: map<string, Json>)
    ensures j.JObj? ==> m == j.fields
    ensures !j.JObj? ==> m == map[]
  {
    match j
    case JObj(fields) => fields
    case _ => map[]
  }

  /** A two-entry object. */
  function Pair(k1: string, v1: Json, k2: string, v2: Json): Json {
    JObj(map[k1 := v1, k2 := v2])
  }

  /** Ruby's `to_s` on a JSON value, as string interpolation uses it. */
  function ToS(j: Json): string {
    match j
    case JNull => ""
    case JBool(b) => if b then "true" else "false"
    case JNum(n) => Text.Decimal(n)
    case JStr(s) => s
    case JArr(_) => "[...]"
    case JObj(_) => "{...}"
  }
}
