/** Optional values and pass/fail outcomes used across the model. */
module Wrappers {

  /** A value that may be absent (`undefined` or `null` in the source). */
  datatype Option<+T> = None | Some(value: T)

  /** The outcome of an operation that may throw: `Fail` carries the message of the thrown error. */
  datatype Outcome<+E> = Pass | Fail(error: E)
}
