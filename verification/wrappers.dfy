/** Option and Result values shared by the models of the push command and
    of the question helper. */
module Wrappers {

  /** A value that may be absent (PHP `null` or `false`). */
  datatype Option<+T> = None | Some(value: T)

  /** The outcome of an operation that may throw: a value or an error message. */
  datatype Result<+R, +E> = Success(value: R) | Failure(error: E)
}
