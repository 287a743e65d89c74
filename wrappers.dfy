/** Optional values and error-carrying results, used for the lookups and
    the exceptions of the services. */
module Wrappers {

  datatype Option<+T> = None | Some(value: T)

  datatype Result<+R, +E> = Success(value: R) | Failure(error: E)
}
