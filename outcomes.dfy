/** Success and failure values used in place of JavaScript's thrown exceptions and `null`. */
module Outcomes {

  /** A value that may be absent (`null` or `undefined` in the JavaScript). */
  datatype Option<+T> = None | Some(value: T)

  /** A computed value, or the error that stopped the computation. */
  datatype Result<+R, +E> = Success(value: R) | Failure(error: E)

  /** A completed invocation, or the error it ends with. */
  datatype Outcome<+E> = Pass | Fail(error: E)
}
