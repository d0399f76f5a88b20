/** Optional values and success-or-error results, used for absent records and for
    the error a mutation raises. */
module Wrappers {

  datatype Option<+T> = None | Some(value: T)

  datatype Result<+R, +E> = Success(value: R) | Failure(error: E)
}
