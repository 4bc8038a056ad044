/** Option and Result, the two failure-carrying shapes the model uses. */
module Wrappers {

  /** Python's `None` or a value. */
  datatype Option<+T> = None | Some(value: T)

  /** A normal return or a raised exception of type `E`. */
  datatype Result<+T, +E> = Ok(value: T) | Err(error: E)
}
