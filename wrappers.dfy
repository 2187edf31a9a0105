/** Optional values and success-or-error results, for the `None` returns and
    the raised exceptions of the generator. */
module Wrappers {

  datatype Option<+T> = None | Some(value: T)

  datatype Result<+T, +E> = Success(value: T) | Failure(error: E)
}
