/** Option and Result, used for the source's nullable values and for the one exception it throws. */
module Wrappers {

  /** A value that may be absent: C#'s `null` for reference types and `T?` for enums. */
  datatype Option<+T> = None | Some(value: T)

  /** The outcome of an operation that can throw. */
  datatype Result<+R, +E> = Success(value: R) | Failure(error: E)
}
