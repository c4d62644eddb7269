/** Optional values and results with an error, for the record fields that may be
    missing and for the fetch that may fail. */
module Wrappers {

  datatype Option<+T> = None | Some(value: T)

  datatype Result<+T, +E> = Success(value: T) | Failure(error: E)
}
