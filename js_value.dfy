/**
 * The JavaScript values the message bus sees as arguments, and the ways a
 * call can end. Only what the bus inspects is kept: the `typeof` tests it
 * performs, truthiness, and strict equality (`===`), which on this datatype
 * is Dafny's `==` because functions, objects and promises carry an identity.
 */
module JsValue {

  /** A JavaScript value. `Fn`, `Obj` and `Promise` are compared by
      identity; a `Promise` is a native promise, its identity, and how it
      settles. */
  datatype Value =
    | Undefined
    | Null
    | Bool(b: bool)
    | Num(n: int)
    | Str(text: string)
    | Fn(fnId: nat)
    | Obj(objId: nat)
    | Promise(promiseId: nat, settles: Completion)

  /** How a call of a JavaScript function ends: it returns or it throws. */
  datatype Completion = Normal(value: Value) | Thrown(error: Value)

  /** JavaScript truthiness: `undefined`, `null`, `false`, `0` and `""`
      are the falsy values this model can express. Functions, objects and
      promises are always truthy. */
  predicate IsTruthy(v: Value)
    ensures v.Fn? || v.Obj? || v.Promise? ==> IsTruthy(v)
  {
    match v
    case Undefined => false
    case Null => false
    case Bool(b) => b
    case Num(n) => n != 0
    case Str(t) => t != ""
    case _ => true
  }

  /** `typeof v === 'function'`. A function is truthy, so a callback that
      passes this test also passes `callback &&`. */
  predicate IsFunction(v: Value)
    ensures IsFunction(v) ==> IsTruthy(v)
  {
    v.Fn?
  }

  /** The two errors the bus throws itself, and a handler's error that
      `callSync` throws again after logging it. */
  datatype BusError =
    | InvalidTopic      // "event type must be a non-empty string"
    | InvalidCallback   // "callback must be a function"
    | Rethrown(thrown: Value)

  /** A public operation either completes with a value or throws. */
  datatype Result<T> = Ok(value: T) | Err(error: BusError)

  /** What a handler does when the bus calls it with
      (callback, receiver bound to `this`, data). */
  type Behaviour = (Value, Value, Value) -> Completion
}
