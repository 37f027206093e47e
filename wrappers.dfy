/** Absent-or-present values and success-or-error values. */
module Wrappers {

  /** A JavaScript slot that is either `undefined` or holds a value. */
  datatype Option<+T> = None | Some(value: T)

  /** The outcome of an operation that either returns a value or throws. */
  datatype Result<+R, +E> = Success(value: R) | Failure(error: E)
}
