/** Optional values and failures, shared by the catalog and the session models. */
module Wrappers {

  /** A value that may be absent: JavaScript's `null`/`undefined` or a missing key. */
  datatype Option<+T> = None | Some(value: T)

  /** The outcome of an operation that may throw: `Failure` carries the thrown message. */
  datatype Result<+T, +E> = Success(value: T) | Failure(error: E)
}
