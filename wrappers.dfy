/** Optional values and results with an error, as the generator scripts use them:
    Python's None, and an exception that ends the script. */
module Wrappers {

  datatype Option<+T> = None | Some(value: T)

  datatype Result<+R, +E> = Success(value: R) | Failure(error: E)
}
