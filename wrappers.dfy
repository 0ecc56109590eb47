/** Optional values and the outcome of an operation that may throw. */
module Wrappers {

  /** A value that JavaScript may leave `undefined` or `null`. */
  datatype Option<+T> = None | Some(value: T)

  /** The outcome of a call that either returns a value or throws an
      `Error` whose `message` is recorded ("" when the thrown value has none). */
  datatype Result<+T> = Ok(value: T) | Err(message: string)
}
