/** Optional values and the outcomes of operations that may throw. */
module Wrappers {

  datatype Option<+T> = None | Some(value: T)

  /** The value of a throwing function: its result, or the error it threw. */
  datatype Result<+R, +E> = Success(value: R) | Failure(error: E)

  /** The outcome of a throwing function that returns nothing. */
  datatype Outcome<+E> = Pass | Fail(error: E)
}
