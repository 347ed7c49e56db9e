/** The values `JSON.parse` (and `request.json()`, `response.json()`)
    produce, with the JavaScript property access and truthiness the blog's
    code applies to them. Numbers are integers here. */
module JsonValue {
  import opened Wrappers
  import opened JsText

  datatype Json =
    | JNull
    | JBool(b: bool)
    | JNum(n: int)
    | JStr(s: string)
    | JArr(items: seq<Json>)
    | JObj(fields: map<string, Json>)

  /** `v.key` on a value that is not `null`: the member of an object, and
      `undefined` (None) for a missing key and for arrays and primitives. */
  function Field(v: Json, key: string): Option<Json> {
    if v.JObj? && key in v.fields then Some(v.fields[key]) else None
  }

  /** `v?.key`: `undefined` when `v` itself is `undefined` or `null`. */
  function OptionalField(v: Option<Json>, key: string): Option<Json> {
    if v.None? || v.value.JNull? then None else Field(v.value, key)
  }

  /** JavaScript truthiness of a possibly-`undefined` value. */
  predicate Truthy(v: Option<Json>) {
    match v
    case None => false
    case Some(JNull) => false
    case Some(JBool(b)) => b
    case Some(JNum(n)) => n != 0
    case Some(JStr(s)) => s != ""
    case Some(JArr(_)) => true
    case Some(JObj(_)) => true
  }

  /** `a || b` on two possibly-`undefined` values. */
  function Or(a: Option<Json>, b: Option<Json>): (r: Option<Json>)
    ensures Truthy(a) ==> r == a
    ensures !Truthy(a) ==> r == b
  {
    if Truthy(a) then a else b
  }

  /** How `Array.prototype.join` writes one element: `null` as the empty
      string, an array as its own comma join, an object as
      "[object Object]". */
  function ElementText(v: Json): string
    decreases v
  {
    match v
    case JNull => ""
    case JBool(b) => if b then "true" else "false"
    case JNum(n) => IntText(n)
    case JStr(s) => s
    case JArr(xs) => Join(seq(|xs|, i requires 0 <= i < |xs| => ElementText(xs[i])), ",")
    case JObj(_) => "[object Object]"
  }

  /** `items.join(sep)` for an array of JSON values. */
  function JoinItems(items: seq<Json>, sep: string): string {
    Join(seq(|items|, i requires 0 <= i < |items| => ElementText(items[i])), sep)
  }
}
