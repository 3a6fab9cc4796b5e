/** Option and Result: absent rows (Python `None`) and raised exceptions. */
module Wrappers {

  /** A value that may be missing, as a `fetchone()` that found no row. */
  datatype Option<+T> = None | Some(value: T)

  /** The outcome of an operation that may raise. */
  datatype Result<+T, +E> = Ok(value: T) | Err(error: E)
}
