/** Optional values and fallible results, used where the source has `null`,
    `undefined`, optional chaining or a thrown error. */
module Wrappers {

  datatype Option<+T> = None | Some(value: T)

  datatype Result<+T, +E> = Success(value: T) | Failure(error: E)
}
