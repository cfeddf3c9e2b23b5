/** Small option and result types used across the model. */
module Wrappers {

  /** A value that may be absent: Go's nil pointer or "no error". */
  datatype Option<+T> = None | Some(value: T)

  /** The outcome of an operation that returns a value or a Go error. */
  datatype Result<+R, +E> = Ok(value: R) | Err(error: E)
}
