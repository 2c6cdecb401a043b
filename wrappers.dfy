/** Optional values and fallible results, used wherever the game code has an
    `Option` or a path that ends in a panic. */
module Wrappers {

  datatype Option<+T> = None | Some(value: T)

  datatype Result<+R, +E> = Success(value: R) | Failure(error: E)
}
