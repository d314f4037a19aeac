/** Optional values and results, standing in for JavaScript's `undefined`/`null` and for code that may throw. */
module Wrappers {

  /** A value that may be absent (`undefined` or `null` in the source). */
  datatype Option<+T> = None | Some(value: T)

  /** The outcome of a computation that either returns a value or throws. */
  datatype Outcome<+R, +E> = Returned(value: R) | Thrown(error: E)
}
