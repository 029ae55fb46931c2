/** Optional values and results: the model's stand-ins for `undefined` and for
    operations that either succeed or report why they did not. */
module Wrappers {

  datatype Option<+T> = None | Some(value: T)

  datatype Result<+T, +E> = Success(value: T) | Failure(error: E)
}
