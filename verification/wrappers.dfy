/**
 Wrappers used across the model: `Option` for values that may be
 absent (a null context, a settings asset that was not found) and `Result` for
 operations that either produce a value or raise an exception.
 */
module Wrappers {

  /** A value that may be absent; stands in for a nullable reference. */
  datatype Option<+T> = None | Some(value: T)

  /** Either a value or the exception an operation raised. */
  datatype Result<+R, +E> = Success(value: R) | Failure(error: E)
}
