/** Optional values and results with an error, the shapes Go expresses as
    `(value, error)` pairs and nil-able values. */
module Wrappers {

  datatype Option<+T> = None | Some(value: T)

  datatype Result<+R, +E> = Success(value: R) | Failure(error: E)
}
