/** Option and Result, the two ways the modelled Go code signals absence and failure. */
module Wrappers {

  /** A value that may be missing: a nil reference or an unset field in the Go code. */
  datatype Option<+T> = None | Some(value: T)

  /** A value, or the error the Go code returns instead of it. */
  datatype Result<+T, +E> = Ok(value: T) | Err(error: E)
}
