/** Small value wrappers used across the model: an optional value (a Go nil
    reference or an empty field) and an (value, error) pair as Go returns it. */
module Wrappers {

  datatype Option<+T> = None | Some(value: T)

  datatype Result<+R, +E> = Success(value: R) | Failure(error: E)
}
