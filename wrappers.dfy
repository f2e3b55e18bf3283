/** Optional values and success-or-error results, used wherever the program
    returns None, raises, or catches an exception. */
module Wrappers {

  datatype Option<+T> = None | Some(value: T)

  datatype Result<+R, +E> = Success(value: R) | Failure(error: E)
}
