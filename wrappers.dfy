/** Option and Result values standing in for Python's `None` and for raised exceptions. */
module Wrappers {

  datatype Option<+T> = None | Some(value: T)

  /** `Success` is a normal return; `Failure` is a raised exception carrying its error. */
  datatype Result<+T, +E> = Success(value: T) | Failure(error: E)
}
