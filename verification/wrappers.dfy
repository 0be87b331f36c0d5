/** Failure-carrying result types used where the formatter reports an error. */
module Wrappers {

  datatype Option<+T> = None | Some(value: T)

  /** Either a computed value or the error the operation reported. */
  datatype Result<+T, +E> = Success(value: T) | Failure(error: E)
}
