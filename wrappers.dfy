/** Optional values and success/failure results, used for nullable inputs and error returns. */
module Wrappers {

  datatype Option<+T> = None | Some(value: T)

  /** A result carrying either a value or an error. */
  datatype Result<+T, +E> = Success(value: T) | Failure(error: E)

  /** A result that carries only an error, for operations that return nothing else. */
  datatype Outcome<+E> = Pass | Fail(error: E)
}
