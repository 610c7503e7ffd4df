/**
  The slice of JavaScript values that the error helpers, the validators and the
  error envelope look at. Numbers are integers (no NaN, no fractions); objects
  and arrays do not occur in the modelled code paths.
 */
module Js {

  datatype Value = Undefined | Null | Bool(b: bool) | Num(n: int) | Str(s: string)

  /** JavaScript truthiness: `undefined`, `null`, `false`, `0` and `""` are falsy. */
  predicate Truthy(v: Value)
  {
    match v
    case Undefined => false
    case Null => false
    case Bool(b) => b
    case Num(n) => n != 0
    case Str(s) => s != ""
  }

  /** `a || b`: the left operand when it is truthy, otherwise the right one. */
  function Or(a: Value, b: Value): Value
  {
    if Truthy(a) then a else b
  }

  /** A destructuring default `{x = d} = options`: applies only when `x` is `undefined`. */
  function Default(v: Value, d: Value): Value
  {
    if v.Undefined? then d else v
  }

  /** `typeof v === 'string' || typeof v === 'undefined'` */
  predicate StringOrUndefined(v: Value)
  {
    v.Str? || v.Undefined?
  }

  /** `typeof v === 'number' || typeof v === 'undefined'` */
  predicate NumberOrUndefined(v: Value)
  {
    v.Num? || v.Undefined?
  }
}
