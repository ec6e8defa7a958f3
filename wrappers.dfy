/** Optional values and failure-carrying results, used for the source's
    `Optional[...]` fields and its exception paths. */
module Wrappers {

  datatype Option<+T> = None | Some(value: T)

  datatype Result<+R, +E> = Success(value: R) | Failure(error: E)
}
