/** The Option, Result and Outcome datatypes used across the model. */
module Wrappers {

  /** A value that may be absent (Python's `None`). */
  datatype Option<T> = None | Some(value: T)

  /** A computation that either yields a value or raises an error. */
  datatype Result<T, E> = Success(value: T) | Failure(error: E)

  /** A validation step that either passes or raises an error. */
  datatype Outcome<E> = Pass | Fail(error: E)
}
