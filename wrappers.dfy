/** The success-or-exception outcome of an operation that may raise. */
module Wrappers {

  datatype Result<+T, +E> = Success(value: T) | Failure(error: E)
}
