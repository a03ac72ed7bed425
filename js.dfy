/**
 * The JavaScript values and coercions the viewer's helpers rely on: truthiness,
 * `typeof`, property access, `??` and `Number(v)`.
 */
module Js {
  import opened Numbers

  /**
   * A JavaScript value. An object is its own properties in order. A JavaScript object
   * never holds a key twice; should the list repeat one, property access reads the
   * first, which stands for the value the object holds under that key.
   */
  datatype JsValue =
    | Undefined
    | Null
    | Bool(b: bool)
    | Num(n: Float)
    | Str(s: string)
    | Arr(items: seq<JsValue>)
    | Obj(props: seq<(string, JsValue)>)

  /**
   * The engine services the helpers use: `Number(s)` of a string, `Number(a)` of an
   * array (through its string form), and `x.toFixed(1)` / `x.toFixed(2)`.
   */
  datatype JsRuntime = JsRuntime(
    stringToNumber: string -> Float,
    arrayToNumber: seq<JsValue> -> Float,
    toFixed1: real -> string,
    toFixed2: real -> string)

  /** `!!v`. */
  predicate Truthy(v: JsValue)
  {
    match v
    case Undefined => false
    case Null => false
    case Bool(b) => b
    case Num(n) => !(n.NaN? || n == Finite(0.0))
    case Str(s) => s != ""
    case Arr(_) => true
    case Obj(_) => true
  }

  /** `typeof v === 'object'`: objects, arrays and null. */
  predicate IsObjectType(v: JsValue)
  {
    v.Null? || v.Arr? || v.Obj?
  }

  /** `v == null`: the two values `??` falls through. */
  predicate IsNullish(v: JsValue)
  {
    v.Undefined? || v.Null?
  }

  /** The value of an own property, or undefined when there is none. */
  function Lookup(props: seq<(string, JsValue)>, key: string): (v: JsValue)
    ensures (forall i | 0 <= i < |props| :: props[i].0 != key) ==> v == Undefined
    ensures (exists i | 0 <= i < |props| :: props[i].0 == key) ==>
      exists i | 0 <= i < |props| :: props[i].0 == key && v == props[i].1
  {
    if props == [] then Undefined
    else if props[0].0 == key then props[0].1
    else Lookup(props[1..], key)
  }

  /**
   * `v?.[key]` for the keys the helpers read: an object's own property; arrays,
   * primitives, null and undefined have none of them.
   */
  function Get(v: JsValue, key: string): JsValue
  {
    match v
    case Obj(props) => Lookup(props, key)
    case _ => Undefined
  }

  /** `a ?? b`. */
  function Coalesce(a: JsValue, b: JsValue): (r: JsValue)
    ensures IsNullish(a) ==> r == b
    ensures !IsNullish(a) ==> r == a
  {
    if IsNullish(a) then b else a
  }

  /** `Number(v)`. */
  function ToNumber(rt: JsRuntime, v: JsValue): Float
  {
    match v
    case Undefined => NaN
    case Null => Finite(0.0)
    case Bool(b) => Finite(if b then 1.0 else 0.0)
    case Num(n) => n
    case Str(s) => rt.stringToNumber(s)
    case Arr(items) => rt.arrayToNumber(items)
    case Obj(_) => NaN
  }

  /** `Number.isFinite(v)`: a finite number, with no coercion. */
  predicate IsFiniteNumber(v: JsValue)
  {
    v.Num? && v.n.Finite?
  }
}
