/** Option and Result values used for nullable prices and for the error paths of the optimizer. */
module Wrappers {

  /** A value that may be absent; a `None` price is a gap in the spot series. */
  datatype Option<+T> = None | Some(value: T)

  /** Either a value or the error that stopped the computation. */
  datatype Result<+T, +E> = Ok(value: T) | Err(error: E)
}
