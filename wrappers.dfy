/** Option and Result, the two failure-carrying datatypes the rest of the model uses
    in place of Python's None and exceptions. */
module Wrappers {

  datatype Option<+T> = None | Some(value: T)

  /** Success carries a value; Failure carries the text of the exception that was raised. */
  datatype Result<+T, +E> = Success(value: T) | Failure(error: E)
}
