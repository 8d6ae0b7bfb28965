/** Failure-carrying values: what a Python call either returns or raises. */
module Wrappers {

  datatype Option<+T> = None | Some(value: T)

  /** Ok(v) is a normal return; Err(e) is the exception the call raises. */
  datatype Result<+T, +E> = Ok(value: T) | Err(error: E)
}
