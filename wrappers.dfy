/** Optional values and results shared by the other modules. */
module Wrappers {

  /** A value that may be absent: Python's `Optional[...]`, or an omitted keyword argument. */
  datatype Option<+T> = None | Some(value: T)

  /** The outcome of an operation that can raise: either its value or the error it raised. */
  datatype Result<+T, +E> = Success(value: T) | Failure(error: E)
}
