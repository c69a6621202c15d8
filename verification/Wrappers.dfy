/** Result types shared by every module. */
module Wrappers {

  /** A value that may be absent. */
  datatype Option<+T> = None | Some(value: T)

  /** A value, or the reason why there is none. */
  datatype Result<+T, +E> = Ok(value: T) | Err(error: E)

  /** The first of two optional values that is present. */
  function FirstOf<T>(a: Option<T>, b: Option<T>): Option<T> {
    if a.Some? then a else b
  }
}
