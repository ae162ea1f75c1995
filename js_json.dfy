/**
 * How the TypeScript code reads a value `JSON.parse` returned: property
 * access, truthiness, `??`, and the text a template literal or a string
 * assignment produces.
 */
module JsJson {
  import opened Wrappers
  import opened Json
  import opened Text
  import opened Js

  /**
   * `v.key` for the member names the code reads. `null` has no
   * properties, so the access throws; numbers, strings, booleans and
   * arrays have none of these names and give `undefined` (`None`).
   */
  function Property(v: Json, key: string): (r: Result<Option<Json>, string>)
    ensures r.Err? <==> v.JNull?
    ensures r.Ok? && r.value.Some? ==> v.JObj? && exists i :: 0 <= i < |v.fields| && v.fields[i] == (key, r.value.value)
  {
    match v
    case JNull => Err("TypeError: cannot read properties of null")
    case JObj(fields) => Ok(Lookup(fields, key))
    case _ => Ok(None)
  }

  /** JavaScript truthiness of a value that may be `undefined`. */
  predicate JsonTruthy(v: Option<Json>) {
    match v
    case None => false
    case Some(JNull) => false
    case Some(JBool(b)) => b
    case Some(JNum(n)) => n != 0
    case Some(JStr(s)) => s != ""
    case Some(_) => true
  }

  /** `a ?? b`: `b` when `a` is `undefined` or `null`. */
  function Nullish(a: Option<Json>, b: Option<Json>): (r: Option<Json>)
    ensures a.Some? && !a.value.JNull? ==> r == a
    ensures a.None? || a.value.JNull? ==> r == b
  {
    if a.None? || a.value.JNull? then b else a
  }

  /** `String(n)` for an integer. */
  function IntText(n: int): string {
    if n < 0 then "-" + Decimal(-n) else Decimal(n)
  }

  /** `String(v)`: what `${v}` and `env[key] = v` followed by `${value}` write. */
  function ToText(v: Json): string
    decreases v, 0
  {
    match v
    case JNull => "null"
    case JBool(b) => if b then "true" else "false"
    case JNum(n) => IntText(n)
    case JStr(s) => s
    case JObj(_) => "[object Object]"
    case JArr(items) => Join(seq(|items|, i requires 0 <= i < |items| => ItemText(items[i])), ",")
  }

  /** An array element as `Array.prototype.join` writes it: `null` as the empty text. */
  function ItemText(v: Json): string
    decreases v, 1
  {
    if v.JNull? then "" else ToText(v)
  }

  /** `${v}` for a value that may be `undefined`. */
  function OptText(v: Option<Json>): string {
    if v.None? then "undefined" else ToText(v.value)
  }
}
