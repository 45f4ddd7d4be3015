/** Failure-compatible wrapper types shared by the other modules. */
module Wrappers {

  /** `None` stands for JavaScript's `undefined` wherever a value may be absent. */
  datatype Option<+T> = None | Some(value: T)

  /** The outcome of a call that may throw (or reject) instead of returning. */
  datatype Result<+T, +E> = Success(value: T) | Failure(error: E)
}
