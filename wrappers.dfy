/** Optional values and success-or-error results, used wherever the C++ code
    returns a nullable pointer or may throw. */
module Wrappers {

  datatype Option<+T> = None | Some(value: T)

  datatype Result<+T, +E> = Success(value: T) | Failure(error: E)
}
