/** Optional values and success/failure results, used for the optional fields of
    the paging request and configuration and for the paginator's error path. */
module Wrappers {

  datatype Option<+T> = None | Some(value: T)

  datatype Result<+R, +E> = Success(value: R) | Failure(error: E)
}
