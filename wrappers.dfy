/** Option and Result: a value that may be missing, and a computation that may fail. */
module Wrappers {

  /** A JavaScript value that may be `undefined` or `null`. */
  datatype Option<+T> = None | Some(value: T)

  /** A rendering that either produces a value or throws. */
  datatype Result<+T, +E> = Ok(value: T) | Err(error: E)
}
