/** Option and Result values used in place of null references and thrown exceptions. */
module Wrappers {

  /** A value that may be absent (a null reference or an empty optional in the source). */
  datatype Option<+T> = None | Some(value: T)

  /** The outcome of an operation that either yields a value or fails with an error. */
  datatype Result<+R, +E> = Success(value: R) | Failure(error: E)

  /** The outcome of an operation that yields nothing or fails with an error. */
  datatype Outcome<+E> = Pass | Fail(error: E)
}
