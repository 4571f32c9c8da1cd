/** Optional values and error outcomes shared by the three components. */
module Wrappers {

  /** A value that may be absent (JavaScript `undefined`/`null`, Java `null`). */
  datatype Option<+T> = None | Some(value: T)

  /** The outcome of an operation that can raise. */
  datatype Result<+T, +E> = Success(value: T) | Failure(error: E)
}
