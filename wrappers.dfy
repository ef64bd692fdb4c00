/** Error-carrying results used where the Go code returns `(value, error)` or an optional value. */
module Wrappers {

  datatype Option<+T> = None | Some(value: T)

  datatype Result<+R, +E> = Success(value: R) | Failure(error: E)
}
