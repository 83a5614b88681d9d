/** The part of JavaScript's value semantics the adapter relies on:
    truthiness, the `||` operator, `typeof v === 'number'` and reading a
    property, which throws a TypeError on `null` and `undefined`. */
module Js {
  import opened Wrappers

  /** A JavaScript value. Numbers are integers here (no NaN, no fractions);
      `ErrorObj` is an `Error` instance with its `name` and `message`. */
  datatype Value =
    | Undefined
    | Null
    | Bool(b: bool)
    | Num(n: int)
    | Str(s: string)
    | Arr(items: seq<Value>)
    | Obj(props: map<string, Value>)
    | ErrorObj(name: string, message: Value)

  /** The falsy values are undefined, null, false, 0 and the empty string;
      every object, array and error is truthy. */
  predicate Truthy(v: Value) {
    match v
    case Undefined => false
    case Null => false
    case Bool(b) => b
    case Num(n) => n != 0
    case Str(s) => s != ""
    case _ => true
  }

  predicate Nullish(v: Value) {
    v.Undefined? || v.Null?
  }

  /** `a || b`: the first operand if it is truthy, otherwise the second. */
  function Or(a: Value, b: Value): (r: Value)
    ensures Truthy(r) <==> Truthy(a) || Truthy(b)
    ensures Truthy(a) ==> r == a
    ensures !Truthy(a) ==> r == b
  {
    if Truthy(a) then a else b
  }

  /** `new Error(m)`; the message is kept as the value given. */
  function NewError(m: Value): (e: Value)
    ensures Truthy(e) && e.ErrorObj? && e.message == m
  {
    ErrorObj("Error", m)
  }

  /** The TypeError a property read `v[key]` throws when `v` is nullish,
      worded as V8 words it. */
  function ReadError(v: Value, key: string): (e: Value)
    requires Nullish(v)
    ensures Truthy(e) && e.ErrorObj? && e.name == "TypeError"
  {
    var what := if v.Null? then "null" else "undefined";
    ErrorObj("TypeError", Str("Cannot read properties of " + what + " (reading '" + key + "')"))
  }

  /** `v[key]`: the property's value, `undefined` when it is missing, or the
      thrown TypeError when `v` is null or undefined. */
  function Get(v: Value, key: string): (r: Result<Value, Value>)
    ensures r.Failure? <==> Nullish(v)
    ensures r.Failure? ==> r.error == ReadError(v, key)
    ensures v.Obj? ==> r == Success(if key in v.props then v.props[key] else Undefined)
    ensures v.ErrorObj? ==>
      r == Success(if key == "message" then v.message else if key == "name" then Str(v.name) else Undefined)
    ensures !Nullish(v) && !v.Obj? && !v.ErrorObj? ==> r == Success(Undefined)
  {
    match v
    case Undefined => Failure(ReadError(v, key))
    case Null => Failure(ReadError(v, key))
    case Obj(props) => Success(if key in props then props[key] else Undefined)
    case ErrorObj(name, message) =>
      Success(if key == "message" then message else if key == "name" then Str(name) else Undefined)
    case _ => Success(Undefined)
  }
}
