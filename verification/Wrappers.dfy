/** The result types shared by every module. */
module Wrappers {
  datatype Option<+T> = None | Some(value: T)

  /** A Go `(value, error)` pair. */
  datatype Result<+T, +E> = Ok(value: T) | Err(error: E)
}
