/** Optional values and pass/fail outcomes used across the model. */
module Wrappers {

  datatype Option<+T> = None | Some(value: T)

  /** The result of an operation that either succeeds or fails with an error. */
  datatype Outcome<+E> = Pass | Fail(error: E)
}
