/** Optional values and failure-carrying results, used for the source's
    `undefined`/`null` values and for its thrown errors. */
module Wrappers {

  datatype Option<+T> = None | Some(value: T)

  datatype Result<+R, +E> = Success(value: R) | Failure(error: E)
}
