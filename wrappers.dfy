/** Option and Result values shared by the model. */
module Wrappers {

  /** A value that may be absent: JavaScript's `null` for a stored item or a field. */
  datatype Option<+T> = None | Some(value: T)

  /** The outcome of an operation that may throw (a rejected promise or an exception). */
  datatype Result<+R, +E> = Success(value: R) | Failure(error: E)
}
