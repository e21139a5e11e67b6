/** Option and Result values shared by every module of the model. A Go `nil`
    reference, function or interface becomes `None`; a Go `(value, error)` pair
    becomes a `Result`. */
module Wrappers {

  datatype Option<+T> = None | Some(value: T)

  datatype Result<+R, +E> = Success(value: R) | Failure(error: E)
}
