/** Optional values and error-or-value results, used for JavaScript's
    `undefined`/`null` and for functions that throw. */
module Wrappers {

  /** A value that may be absent (`undefined` or `null` in JavaScript). */
  datatype Option<+T> = None | Some(value: T)

  /** The outcome of an operation that either returns a value or throws an error. */
  datatype Result<+T, +E> = Ok(value: T) | Err(error: E)
}
