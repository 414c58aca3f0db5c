/** The error path of the knot-vector utilities: a value or the exception raised instead. */
module Wrappers {

  datatype Result<+T, +E> = Success(value: T) | Failure(error: E)
}
