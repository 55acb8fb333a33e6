/** Option, used for the "may be absent" results of the model. */
module Wrappers {

  datatype Option<+T> = None | Some(value: T)
}

/**
 The slice of JavaScript's value universe the dispatcher touches: whatever a
 decoded message can carry, the error objects the dispatcher builds, and
 references to functions. Numbers are integers (floating point is not
 modelled); `NaN` is kept because it is one of the falsy values.
 */
module JsValues {

  datatype Value =
    | Undefined
    | Null
    | Bool(b: bool)
    | Num(n: int)
    | NaN
    | Str(s: string)
    | Obj(props: map<string, Value>)   // own properties only
    | Fn(ref: nat)                     // what the function does is given elsewhere

  /** JavaScript's ToBoolean: the test behind `if (x)` and `!x`. */
  predicate Truthy(v: Value) {
    match v
    case Undefined => false
    case Null => false
    case Bool(b) => b
    case Num(n) => n != 0
    case NaN => false
    case Str(s) => s != []
    case Obj(_) => true
    case Fn(_) => true
  }

  /** `typeof v === 'object'`, which holds for `null` as well. */
  predicate IsObjectType(v: Value) {
    v.Obj? || v.Null?
  }

  /** The property read `v.message`: an own property of an object, and
      `undefined` for every other value. */
  function MessageOf(v: Value): Value {
    if v.Obj? && "message" in v.props then v.props["message"] else Undefined
  }

  /** `new Error(text)`: a truthy object whose message is the given text. */
  function NewError(text: string): (e: Value)
    ensures Truthy(e)
    ensures MessageOf(e) == Str(text)
  {
    Obj(map["message" := Str(text)])
  }
}
