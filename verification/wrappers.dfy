/** Optional values (the source's `undefined` / `null`) and outcomes that may fail. */
module Wrappers {

  datatype Option<+T> = None | Some(value: T)

  /** A computation that either produces a value or fails with an error message. */
  datatype Result<+T> = Success(value: T) | Failure(error: string)
}
