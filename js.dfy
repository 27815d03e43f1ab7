/** JavaScript values as the two form components receive them from
    `response.json()`, and the few JavaScript operators the components
    apply to them: truthiness, property reads and `[0]`, each of which
    may throw a TypeError. */
module Js {

  datatype Option<+T> = None | Some(value: T)

  /** A JavaScript value. `Num` carries a finite number: NaN and the
      infinities are not part of this model. */
  datatype JsValue =
    | Undefined
    | Null
    | Bool(b: bool)
    | Num(n: real)
    | Str(s: string)
    | Arr(items: seq<JsValue>)
    | Obj(props: map<string, JsValue>)

  /** `v` in a boolean context: undefined, null, false, 0 and "" are falsy. */
  predicate Truthy(v: JsValue) {
    match v
    case Undefined => false
    case Null => false
    case Bool(b) => b
    case Num(n) => n != 0.0
    case Str(s) => s != ""
    case Arr(_) => true
    case Obj(_) => true
  }

  /** Reading any property of these two throws a TypeError. */
  predicate Nullish(v: JsValue) {
    v.Undefined? || v.Null?
  }

  /** `v.key` on a value that is neither null nor undefined, for a key that
      names no property of primitives, arrays or `Object.prototype` (all keys
      the components read are of that kind): only an object's own entry is
      found, everything else reads as undefined. */
  function Prop(v: JsValue, key: string): JsValue {
    if v.Obj? && key in v.props then v.props[key] else Undefined
  }

  /** `v.key`; `None` when the read throws. */
  function Property(v: JsValue, key: string): (r: Option<JsValue>)
    ensures r.None? <==> Nullish(v)
    ensures r.Some? ==> r.value == Prop(v, key)
  {
    if Nullish(v) then None else Some(Prop(v, key))
  }

  /** Element 0 of an array, `undefined` when the array is empty. */
  function First(items: seq<JsValue>): JsValue {
    if |items| > 0 then items[0] else Undefined
  }

  /** `v[0]`; `None` when the read throws. A string yields its first
      character, an object its own entry "0". */
  function Element0(v: JsValue): (r: Option<JsValue>)
    ensures r.None? <==> Nullish(v)
    ensures v.Arr? ==> r == Some(First(v.items))
    ensures v.Num? || v.Bool? ==> r == Some(Undefined)
  {
    match v
    case Undefined => None
    case Null => None
    case Bool(_) => Some(Undefined)
    case Num(_) => Some(Undefined)
    case Str(s) => Some(if |s| > 0 then Str([s[0]]) else Undefined)
    case Arr(items) => Some(First(items))
    case Obj(props) => Some(if "0" in props then props["0"] else Undefined)
  }

  /** A number as arithmetic and comparisons see it: finite, or NaN. */
  datatype Numeric = Finite(x: real) | NaN

  /** JavaScript's conversion of `v` to a number, as `<`, `>=` and `1 - v`
      apply it; `None` for strings and non-empty arrays, whose conversion
      goes through string parsing, which is not modelled. */
  function ToNumeric(v: JsValue): (r: Option<Numeric>)
    ensures v.Num? ==> r == Some(Finite(v.n))
    ensures v.Undefined? || v.Obj? ==> r == Some(NaN)
    ensures r.None? <==> v.Str? || (v.Arr? && v.items != [])
  {
    match v
    case Undefined => Some(NaN)
    case Null => Some(Finite(0.0))
    case Bool(b) => Some(Finite(if b then 1.0 else 0.0))
    case Num(n) => Some(Finite(n))
    case Str(_) => None
    case Arr(items) => if items == [] then Some(Finite(0.0)) else None
    case Obj(_) => Some(NaN)
  }

  /** `1 - v` for a number: NaN stays NaN. */
  function OneMinus(v: Numeric): Numeric {
    match v
    case Finite(x) => Finite(1.0 - x)
    case NaN => NaN
  }
}
