/** Option and Result values: `null` / a present value, and a thrown `Error(message)` / a returned value. */
module Wrappers {

  datatype Option<+T> = None | Some(value: T)

  datatype Result<+R, +E> = Success(value: R) | Failure(error: E)
}
