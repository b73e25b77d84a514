/** Optional values and results with an error, used where the Java code
    works with `null` or throws. */
module Wrappers {

  /** A value that may be absent (the Java `null`). */
  datatype Option<+T> = None | Some(value: T)

  /** Either a computed value or the error that stopped the computation. */
  datatype Result<+T, +E> = Ok(value: T) | Err(error: E)
}
