/**
 The slice of JavaScript's value semantics that the overlay widget relies on:
 truthiness, the `||` operator, property access (which throws on `null` and
 `undefined`) and the `x.length > 0` test used by the tap handlers.
 */
module JsValues {

  /** A JavaScript value. Numbers are modelled as integers; objects are
      compared structurally, which is all the widget ever needs. */
  datatype Value =
    | Undefined
    | Null
    | Bool(b: bool)
    | Num(n: int)
    | Str(s: string)
    | Arr(elems: seq<Value>)
    | Obj(props: map<string, Value>)

  /** The only exception the widget can raise: reading a property of
      `null` or `undefined`. */
  datatype JsError = TypeError(property: string)

  datatype Result<+T> = Success(value: T) | Failure(error: JsError)

  datatype Option<+T> = None | Some(value: T)

  /** The empty array literal `[]`. */
  const EmptyArray: Value := Arr([])

  /** True for `null` and `undefined`. */
  predicate Nullish(v: Value) {
    v.Undefined? || v.Null?
  }

  /** JavaScript truthiness: `undefined`, `null`, `false`, `0` and `""` are
      falsy; every array and object, even an empty one, is truthy. */
  predicate Truthy(v: Value)
    ensures Truthy(v) <==> v !in {Undefined, Null, Bool(false), Num(0), Str("")}
  {
    match v
    case Undefined => false
    case Null => false
    case Bool(b) => b
    case Num(n) => n != 0
    case Str(s) => s != ""
    case Arr(_) => true
    case Obj(_) => true
  }

  /** `a || b`: the left operand when it is truthy, otherwise the right one. */
  function Or(a: Value, b: Value): (r: Value)
    ensures Truthy(a) ==> r == a
    ensures !Truthy(a) ==> r == b
    ensures Truthy(b) ==> Truthy(r)
  {
    if Truthy(a) then a else b
  }

  /** Property access `v.key`. Objects yield their own property or
      `undefined`; strings and arrays expose `length`; any other primitive has
      no such property; `null` and `undefined` throw a TypeError. */
  function Get(v: Value, key: string): (r: Result<Value>)
    ensures r.Failure? <==> Nullish(v)
    ensures r.Failure? ==> r.error == TypeError(key)
    ensures v.Obj? ==> r == Success(if key in v.props then v.props[key] else Undefined)
    ensures v.Arr? && key == "length" ==> r == Success(Num(|v.elems|))
    ensures v.Str? && key == "length" ==> r == Success(Num(|v.s|))
    ensures (v.Bool? || v.Num?) ==> r == Success(Undefined)
  {
    match v
    case Undefined => Failure(TypeError(key))
    case Null => Failure(TypeError(key))
    case Obj(props) => Success(if key in props then props[key] else Undefined)
    case Arr(elems) => Success(if key == "length" then Num(|elems|) else Undefined)
    case Str(s) => Success(if key == "length" then Num(|s|) else Undefined)
    case _ => Success(Undefined)
  }

  /** The comparison `v > 0` for the values a `length` property can hold in
      this model: numbers compare directly, booleans convert to 0 or 1, and
      `null`, `undefined` and the remaining values are not greater than 0. */
  predicate IsPositive(v: Value) {
    match v
    case Num(n) => n > 0
    case Bool(b) => b
    case _ => false
  }

  /** `v.length > 0`, including the TypeError on a nullish `v`. */
  function HasElements(v: Value): (r: Result<bool>)
    ensures r.Failure? <==> Nullish(v)
    ensures v.Arr? ==> r == Success(|v.elems| > 0)
    ensures v.Str? ==> r == Success(|v.s| > 0)
    ensures (v.Bool? || v.Num?) ==> r == Success(false)
  {
    match Get(v, "length")
    case Failure(e) => Failure(e)
    case Success(len) => Success(IsPositive(len))
  }
}
