/** Failure-compatible result types shared by the model. */
module Wrappers {

  /** A value that may be absent (a C# null or a failed lookup). */
  datatype Option<+T> = None | Some(value: T)

  /** A value or the error that the source would have thrown instead. */
  datatype Result<+T, +E> = Ok(value: T) | Err(error: E)
}
