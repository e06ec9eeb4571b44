/** Optional values and results with an error payload, used wherever the
    application has a value that may be null or an operation that may fail. */
module Wrappers {

  datatype Option<+T> = None | Some(value: T)

  datatype Result<+R, +E> = Success(value: R) | Failure(error: E)
}
