/**
 * The part of JavaScript's value semantics the dashboard relies on: the values a JSON
 * backend can send (functions and arrays aside), truthiness, `||`, property access with
 * and without optional chaining, and string conversion as done by template literals.
 * Numbers are integers here; floating point and NaN are not modelled.
 */
module Js {
  import opened Wrappers

  datatype JsValue =
    | Undefined
    | Null
    | Bool(b: bool)
    | Num(n: int)
    | Str(s: string)
    | Obj(fields: map<string, JsValue>)

  /** ToBoolean: `undefined`, `null`, `false`, `0` and `""` are falsy; every object is truthy. */
  predicate Truthy(v: JsValue) {
    match v
    case Undefined => false
    case Null => false
    case Bool(b) => b
    case Num(n) => n != 0
    case Str(s) => |s| > 0
    case Obj(_) => true
  }

  predicate Nullish(v: JsValue) {
    v.Undefined? || v.Null?
  }

  lemma TruthyIsNotNullish(v: JsValue)
    ensures Truthy(v) ==> !Nullish(v)
  {
  }

  /** `a === b`; two objects are never identical here, as every decoded value is its own object. */
  predicate StrictEquals(a: JsValue, b: JsValue) {
    !a.Obj? && a == b
  }

  /** `a || b` */
  function Or(a: JsValue, b: JsValue): JsValue {
    if Truthy(a) then a else b
  }

  /** An own property of an object; every other value exposes no modelled property. */
  function Own(v: JsValue, key: string): JsValue {
    if v.Obj? && key in v.fields then v.fields[key] else Undefined
  }

  /** `v?.key`: `undefined` on a nullish `v`, never throws. */
  function OptionalMember(v: JsValue, key: string): JsValue {
    if Nullish(v) then Undefined else Own(v, key)
  }

  /** `v.key`: `None` stands for the TypeError thrown when `v` is nullish. */
  function Member(v: JsValue, key: string): (r: Option<JsValue>)
    ensures r.None? <==> Nullish(v)
    ensures r.Some? ==> r.value == OptionalMember(v, key)
  {
    if Nullish(v) then None else Some(Own(v, key))
  }

  function DigitChar(d: nat): char
    requires d < 10
  {
    "0123456789"[d]
  }

  function NatText(n: nat): string
    decreases n
  {
    if n < 10 then [DigitChar(n)] else NatText(n / 10) + [DigitChar(n % 10)]
  }

  /** `String(v)`, as a template literal `${v}` renders it. */
  function Text(v: JsValue): string {
    match v
    case Undefined => "undefined"
    case Null => "null"
    case Bool(b) => if b then "true" else "false"
    case Num(n) => if n < 0 then "-" + NatText(-n) else NatText(n)
    case Str(s) => s
    case Obj(_) => "[object Object]"
  }

  /** How a statement or an awaited call ended. */
  datatype Exception = Rejected(value: JsValue) | TypeError
  datatype Completion = Normal | Throw(exception: Exception)
}
