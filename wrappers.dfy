/** Failure-compatible wrappers used for the error paths of the modelled code. */
module Wrappers {

  /** A value that may be missing (Python's `KeyError`/`IndexError` paths). */
  datatype Option<+T> = None | Some(value: T)

  /** A computation that either succeeds with a value or fails with an error. */
  datatype Result<+T, +E> = Ok(value: T) | Err(error: E)
}
