/**
 * The JavaScript values the front-end's state code passes around (parsed
 * JSON payloads, store entries) and the few language rules it relies on:
 * truthiness, `a || b`, property reads and numeric coercion.
 */
module JsValue {
  import opened Wrappers
  import SerialFraming

  datatype Value =
    | Undefined
    | Null
    | Bool(b: bool)
    | Num(n: real)
    | NaN
    | Str(s: string)
    | Arr(items: seq<Value>)
    | Obj(fields: map<string, Value>)

  predicate Truthy(v: Value)
  {
    match v
    case Undefined => false
    case Null => false
    case NaN => false
    case Bool(b) => b
    case Num(n) => n != 0.0
    case Str(s) => s != ""
    case Arr(_) => true
    case Obj(_) => true
  }

  predicate Nullish(v: Value)
  {
    v.Undefined? || v.Null?
  }

  /** `a || b`. */
  function Or(a: Value, b: Value): (r: Value)
    ensures Truthy(a) ==> r == a
    ensures !Truthy(a) ==> r == b
    ensures Truthy(a) || Truthy(b) ==> Truthy(r)
  {
    if Truthy(a) then a else b
  }

  /** `v.name` on a value that is neither null nor undefined (those throw a TypeError). */
  function Prop(v: Value, name: string): (r: Value)
    requires !Nullish(v)
    ensures v.Obj? && name in v.fields ==> r == v.fields[name]
    ensures !(v.Obj? && name in v.fields) ==> r == Undefined
  {
    match v
    case Obj(m) => if name in m then m[name] else Undefined
    case _ => Undefined
  }

  /** `v?.name`. */
  function OptProp(v: Value, name: string): (r: Value)
    ensures Nullish(v) ==> r == Undefined
    ensures !Nullish(v) ==> r == Prop(v, name)
  {
    if Nullish(v) then Undefined else Prop(v, name)
  }

  /**
   * `Number(v)` for the values the payloads carry; None is NaN.  A string
   * that `trim()` empties is 0; an array goes through its `join(',')`
   * string, so `[]` is 0, a one-element array converts as its element's
   * string does (null and undefined join as ""), and two or more elements
   * give a comma, which no number literal holds.
   */
  function ToNumber(v: Value): (r: Option<real>)
    ensures v.Num? ==> r == Some(v.n)
    ensures v.Null? ==> r == Some(0.0)
    ensures v.Undefined? || v.NaN? || v.Obj? ==> r == None
    ensures v.Str? && SerialFraming.IsBlank(v.s) ==> r == Some(0.0)
    ensures v.Arr? && |v.items| == 0 ==> r == Some(0.0)
    ensures v.Arr? && |v.items| >= 2 ==> r == None
  {
    match v
    case Num(n) => Some(n)
    case Null => Some(0.0)
    case Bool(b) => Some(if b then 1.0 else 0.0)
    case Str(s) => if SerialFraming.IsBlank(s) then Some(0.0) else None
    case Arr(items) =>
      if |items| == 0 then Some(0.0)
      else if |items| >= 2 then None
      else
        match items[0] {
          case Num(n) => Some(n)
          case Null => Some(0.0)
          case Undefined => Some(0.0)
          case Str(_) => ToNumber(items[0])
          case Arr(_) => ToNumber(items[0])
          case _ => None
        }
    case _ => None
  }

  /**
   * A one-element array converts as its element does when the element's
   * string form is its number form (numbers, strings, arrays and null);
   * `[undefined]` is 0 where `undefined` is NaN, and `[true]` is NaN where
   * `true` is 1.
   */
  lemma SingletonNumber(v: Value)
    ensures v.Num? || v.Str? || v.Arr? || v.Null? ==> ToNumber(Arr([v])) == ToNumber(v)
    ensures ToNumber(Arr([Undefined])) == Some(0.0) && ToNumber(Arr([Bool(true)])) == None
  {
  }
}
