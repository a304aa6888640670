/** Failure-carrying result types shared by every module of the model. */
module Wrappers {

  /** A value that may be absent, as a Go pointer field or a failed lookup. */
  datatype Option<+T> = None | Some(value: T)

  /** The outcome of an operation that returns a value or an error, as Go's `(T, error)`. */
  datatype Result<+T, +E> = Ok(value: T) | Err(error: E)
}
