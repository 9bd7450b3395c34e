/** Option and Result, for Python's `None` and for raised exceptions. */
module Wrappers {

  /** Python's `None` versus a present value. */
  datatype Option<+T> = None | Some(value: T)

  /** A value, or the exception the Python code raises instead of returning. */
  datatype Result<+T, +E> = Success(value: T) | Failure(error: E)
}
