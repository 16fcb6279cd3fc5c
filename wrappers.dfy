/** Option and Result, used for nullable values and for thrown errors. */
module Wrappers {

  /** A value that may be absent: `null` in the source. */
  datatype Option<+T> = None | Some(value: T)

  /** A value or the error a call throws. */
  datatype Result<+T, +E> = Ok(value: T) | Err(error: E)
}
