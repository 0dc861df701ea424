/** Failure-carrying values used throughout the model. */
module Wrappers {

  /** A value that may be absent (Python's `None`). */
  datatype Option<+T> = None | Some(value: T)

  /** The outcome of an operation that either returns a value or raises an
      exception whose message is kept in `error`. */
  datatype Result<+T, +E> = Ok(value: T) | Err(error: E)
}
