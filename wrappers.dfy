/** Optional values and results with an error, the Dafny stand-ins for Go's
    nil-able error and (value, error) return pairs. */
module Wrappers {

  datatype Option<+T> = None | Some(value: T)

  datatype Result<+T, +E> = Success(value: T) | Failure(error: E)
}
