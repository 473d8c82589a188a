/** Option, Result and Outcome, for values that may be missing and for calls that may fail. */
module Wrappers {

  datatype Option<+T> = None | Some(value: T)

  /** The result of a call that returns a value or throws. */
  datatype Result<+T, +E> = Success(value: T) | Failure(error: E)

  /** The result of a call that returns nothing but may throw. */
  datatype Outcome<+E> = Pass | Fail(error: E)
}
