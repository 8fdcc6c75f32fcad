/** JSON-like values as JavaScript sees them after `JSON.parse`, with the few
    language operations the client applies to them: truthiness, property
    reads (plain and optional-chained), `??`, and conversion to a string.
    JavaScript `null` is `JNull`; `undefined` (a missing property) is `None`. */
module JsonValues {
  import opened Wrappers
  import Decimal

  /** Numbers are integers here: the client only meets counts, ids, page
      numbers and millisecond timestamps. */
  datatype Json =
    | JNull
    | JBool(b: bool)
    | JNum(n: int)
    | JStr(s: string)
    | JArr(items: seq<Json>)
    | JObj(fields: map<string, Json>)

  /** JavaScript truthiness: null, false, 0 and "" are falsy; every array and
      object, even an empty one, is truthy. */
  predicate Truthy(j: Json) {
    match j
    case JNull => false
    case JBool(b) => b
    case JNum(n) => n != 0
    case JStr(s) => s != ""
    case JArr(_) => true
    case JObj(_) => true
  }

  /** Truthiness of a possibly undefined value. */
  predicate TruthyOpt(v: Option<Json>) {
    v.Some? && Truthy(v.value)
  }

  /** `v == null` in JavaScript's loose sense: null or undefined. */
  predicate Nullish(v: Option<Json>) {
    v.None? || v.value.JNull?
  }

  /** `j.key` on a non-null value: only objects have properties here. */
  function Get(j: Json, key: string): (v: Option<Json>)
    requires !j.JNull?
    ensures v.Some? <==> j.JObj? && key in j.fields
  {
    if j.JObj? && key in j.fields then Some(j.fields[key]) else None
  }

  /** `v?.key`: undefined when `v` is nullish. */
  function GetOpt(v: Option<Json>, key: string): (r: Option<Json>)
    ensures Nullish(v) ==> r.None?
  {
    if Nullish(v) then None else Get(v.value, key)
  }

  /** `a ?? b`: `a` unless it is null or undefined. */
  function Coalesce(a: Option<Json>, b: Option<Json>): (r: Option<Json>)
    ensures !Nullish(a) ==> r == a
    ensures Nullish(a) ==> r == b
  {
    if Nullish(a) then b else a
  }

  /** `String(n)` for an integer. */
  function NumberText(n: int): string {
    if n < 0 then "-" + Decimal.Show(-n) else Decimal.Show(n)
  }

  /** `String(j)`: what `new Error(j)` stores as its message. Arrays are joined
      with commas, a null element giving the empty string. */
  function Text(j: Json): string
    decreases j
  {
    match j
    case JNull => "null"
    case JBool(b) => if b then "true" else "false"
    case JNum(n) => NumberText(n)
    case JStr(s) => s
    case JArr(items) => JoinText(items)
    case JObj(_) => "[object Object]"
  }

  function JoinText(items: seq<Json>): string
    decreases items
  {
    if items == [] then ""
    else
      var head := if items[0].JNull? then "" else Text(items[0]);
      if |items| == 1 then head else head + "," + JoinText(items[1..])
  }
}
