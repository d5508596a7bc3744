/** Option and Result, standing in for Python's None and for raised exceptions. */
module Wrappers {

  datatype Option<+T> = None | Some(value: T)

  /** `Failure(message)` is an exception whose `str()` is `message`. */
  datatype Result<+R, +E> = Success(value: R) | Failure(error: E)
}
