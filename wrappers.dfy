/** Python's `None`-or-value and exception-or-value outcomes, as datatypes. */
module Wrappers {

  datatype Option<+T> = None | Some(value: T)

  datatype Result<+T, +E> = Success(value: T) | Failure(error: E)
}
