/** Optional values and thrown-or-returned results, as the three variants
    use `null` and exceptions. */
module Wrappers {

  /** A value that may be absent (`null` in the source). */
  datatype Option<+T> = None | Some(value: T)

  /** The outcome of an async function that either returns a value or
      throws an `Error` carrying a message. */
  datatype Result<+T> = Ok(value: T) | Err(message: string)
}
