/**
 * The JavaScript values that the actor's input and a user-supplied function
 * can produce, with the two language rules the helpers depend on:
 * truthiness (ToBoolean) and the `typeof` operator.
 */
module JsValues {
  /** A JavaScript value. Numbers are the integers; NaN, fractions and functions are not modelled. */
  datatype Value =
    | Undefined
    | Null
    | Bool(b: bool)
    | Num(n: int)
    | Str(s: string)
    | Arr(elems: seq<Value>)
    | Obj(props: map<string, Value>)
  {
    /** `undefined` or `null`: the values whose property access throws a TypeError. */
    predicate IsNullish() {
      Undefined? || Null?
    }
  }

  /** ToBoolean: `false`, `0`, `""`, `null` and `undefined` are falsy, everything else is truthy. */
  predicate Truthy(v: Value)
    ensures Truthy(v) ==> !v.IsNullish()
  {
    match v
    case Undefined => false
    case Null => false
    case Bool(b) => b
    case Num(n) => n != 0
    case Str(s) => s != ""
    case Arr(_) => true
    case Obj(_) => true
  }

  /** The `typeof` operator: `null` and arrays are both reported as "object". */
  function TypeOf(v: Value): string {
    match v
    case Undefined => "undefined"
    case Null => "object"
    case Bool(_) => "boolean"
    case Num(_) => "number"
    case Str(_) => "string"
    case Arr(_) => "object"
    case Obj(_) => "object"
  }

  /**
   * Property access `v[key]` on a value that is neither `undefined` nor `null`,
   * for a key that no prototype defines: an object's own property, or `undefined`.
   */
  function Get(v: Value, key: string): Value
    requires !v.IsNullish()
  {
    if v.Obj? && key in v.props then v.props[key] else Undefined
  }
}
