/**
 * The small slice of JavaScript values assignment validation handles: the primitive
 * kinds, arrays, plain objects and error objects, with `typeof` and the
 * truthiness used by `if (x)`, `!x` and `x || y`.
 */
module JsValues {

  /** A JavaScript value. Numbers are integers here (no NaN, no -0, no fractions). */
  datatype Value =
    | Undefined
    | Null
    | Bool(b: bool)
    | Number(n: int)
    | Str(s: string)
    | Array(items: seq<Value>)
    | Object(fields: seq<(string, Value)>)
    | Error(message: string)

  /** The `typeof` operator. `null`, arrays and error objects are all "object". */
  function TypeOf(v: Value): string
  {
    match v
    case Undefined => "undefined"
    case Null => "object"
    case Bool(_) => "boolean"
    case Number(_) => "number"
    case Str(_) => "string"
    case Array(_) => "object"
    case Object(_) => "object"
    case Error(_) => "object"
  }

  /** `typeof v === 'object'`: null, arrays, plain objects and error objects. */
  predicate IsObject(v: Value)
  {
    v.Null? || v.Array? || v.Object? || v.Error?
  }

  /** `IsObject` is exactly `typeof v === 'object'`. */
  lemma IsObjectTypeOf(v: Value)
    ensures IsObject(v) <==> TypeOf(v) == "object"
  {
  }

  /** JavaScript truthiness (ToBoolean). */
  predicate Truthy(v: Value)
  {
    match v
    case Undefined => false
    case Null => false
    case Bool(b) => b
    case Number(n) => n != 0
    case Str(s) => s != ""
    case Array(_) => true
    case Object(_) => true
    case Error(_) => true
  }
}
