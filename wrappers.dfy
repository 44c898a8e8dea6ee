/** Absence and failure, as values. */
module Wrappers {

  /** A value that may be missing (JavaScript `null`/`undefined`, Python `None`). */
  datatype Option<T> = None | Some(value: T)

  /** The outcome of a computation that may fail with an error of type E. */
  datatype Result<T, E> = Ok(value: T) | Err(error: E)
}
