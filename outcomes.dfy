/** Values standing in for JavaScript's `undefined` and for the way an awaited call ends. */
module Outcomes {

  /** A value that may be `undefined`. */
  datatype Option<+T> = None | Some(value: T)

  /** A thrown JavaScript error; rethrowing passes the same value on. */
  datatype Fault = Fault(message: string)

  /** The error a property access on `undefined` throws. */
  const TypeErrorOnUndefined := Fault("TypeError: Cannot read properties of undefined")

  /** How a promise settles: with a value, or rejected with the error that was thrown. */
  datatype Settled<+T> = Fulfilled(value: T) | Rejected(reason: Fault)
}
