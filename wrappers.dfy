/** Failure-carrying wrappers used to model the source's optional values and
    its thrown errors. */
module Wrappers {

  /** A value that may be absent (`undefined` / `null` in the source). */
  datatype Option<+T> = None | Some(value: T)

  /** The outcome of a call that yields a value or fails with an error. */
  datatype Result<+R, +E> = Success(value: R) | Failure(error: E)

  /** The outcome of a call that yields nothing or fails with an error. */
  datatype Outcome<+E> = Pass | Fail(error: E)
}
