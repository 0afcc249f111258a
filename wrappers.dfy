/** Option and Result, the two wrappers the rest of the model returns. */
module Wrappers {

  datatype Option<+T> = None | Some(value: T)

  /** Ok carries the value a call returns; Err the exception it raises. */
  datatype Result<+T, +E> = Ok(value: T) | Err(error: E)
}
