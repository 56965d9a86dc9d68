/** The JavaScript values that the admin panel and the embed script inspect. */
module JsValues {

  datatype Option<+T> = None | Some(value: T)

  /** The only exception the modelled code can raise on its own. */
  datatype JsError = TypeError

  /** The completion of a JavaScript expression: a value, or a thrown error. */
  datatype Result<+T> = Success(value: T) | Failure(error: JsError)

  /** The completion of a handler that returns nothing. */
  datatype Completion = Normal | Thrown(error: JsError)

  /**
   * A JavaScript value. Numbers are integers (fractions, NaN and the
   * infinities do not occur in the modelled code); an object is its own
   * enumerable properties.
   */
  datatype Value =
    | Undefined
    | Null
    | Bool(b: bool)
    | Num(n: int)
    | Str(s: string)
    | Object(fields: map<string, Value>)

  /** ToBoolean: what `if (v)`, `v ? … : …`, `!v` and `||` test. */
  predicate Truthy(v: Value) {
    match v
    case Undefined => false
    case Null => false
    case Bool(b) => b
    case Num(n) => n != 0
    case Str(s) => s != ""
    case Object(_) => true
  }

  /**
   * `v[k]` on a value that is neither undefined nor null. A missing own
   * property reads as undefined; properties that primitives and objects
   * inherit from their prototypes are not modelled.
   */
  function Member(v: Value, k: string): Value {
    if v.Object? && k in v.fields then v.fields[k] else Undefined
  }

  /** `a && b`: `a` itself when it is falsy, otherwise `b`. */
  function And(a: Value, b: Value): (r: Value)
    ensures Truthy(r) <==> Truthy(a) && Truthy(b)
    ensures !Truthy(a) ==> r == a
  {
    if Truthy(a) then b else a
  }

  /** `a || b`: `a` itself when it is truthy, otherwise `b`. */
  function Or(a: Value, b: Value): (r: Value)
    ensures Truthy(r) <==> Truthy(a) || Truthy(b)
    ensures Truthy(a) ==> r == a
  {
    if Truthy(a) then a else b
  }
}
