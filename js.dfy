/** The JavaScript values the validators handle: strings measured the way
    `.length` measures them, numbers as relational comparison sees them, the
    two exceptions a validator can end in, and the pieces of the runtime the
    model leaves abstract (numeric coercion, case mapping, the email regex). */
module Js {

  /** A UTF-16 code unit; a JavaScript string's `length` counts these. */
  newtype CodeUnit = x: int | 0 <= x < 0x1_0000

  /** The value of a text field. */
  type JsString = seq<CodeUnit>

  /** A JavaScript number: NaN, a finite value, or one of the infinities. */
  datatype Number = NaN | Finite(value: real) | PosInfinity | NegInfinity

  /** `isNaN(n)` */
  predicate IsNaN(n: Number) {
    n.NaN?
  }

  /** `n <= k` for a finite constant `k`; every comparison with NaN is false. */
  predicate AtMost(n: Number, k: real) {
    match n
    case Finite(v) => v <= k
    case NegInfinity => true
    case _ => false
  }

  /** `n < k` for a finite constant `k`. */
  predicate Below(n: Number, k: real) {
    match n
    case Finite(v) => v < k
    case NegInfinity => true
    case _ => false
  }

  /** `n > k` for a finite constant `k`. */
  predicate Above(n: Number, k: real) {
    match n
    case Finite(v) => v > k
    case PosInfinity => true
    case _ => false
  }

  /** The exceptions a validator can stop with. */
  datatype Error =
    | TypeError                 // a property read on `undefined`
    | ReferenceError(name: string)  // an identifier that is declared nowhere

  /** Normal completion with a value, or an exception that propagates. */
  datatype Result<+T> = Ok(value: T) | Throw(error: Error) {
    predicate IsFailure() {
      Throw?
    }

    function PropagateFailure<U>(): Result<U>
      requires Throw?
    {
      Throw(error)
    }

    function Extract(): T
      requires Ok?
    {
      value
    }
  }

  /** The parts of the JavaScript runtime the validators call but the model
      does not implement: string-to-number coercion (used by `isNaN` and by
      `<=`, `<`, `>` between a string and a number), `toLowerCase`, and
      `test` of the email regular expression. */
  datatype Host = Host(
    toNumber: JsString -> Number,
    toLowerCase: JsString -> JsString,
    emailPattern: JsString -> bool)
}
