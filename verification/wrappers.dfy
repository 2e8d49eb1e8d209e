/** Python's `None`-or-value and exception-or-value, as datatypes. */
module Wrappers {

  /** `Optional[T]`: `None` or a value. */
  datatype Option<+T> = None | Some(value: T)

  /** A call that either returns a value or raises an error. */
  datatype Result<+R, +E> = Success(value: R) | Failure(error: E)
}
