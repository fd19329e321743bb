/** Failure-carrying wrappers shared by every module of the model. */
module Wrappers {

  /** Python's "a value or None". */
  datatype Option<+T> = None | Some(value: T)

  /** A return value or the exception the source raises instead. */
  datatype Result<+T, +E> = Success(value: T) | Failure(error: E)
}
