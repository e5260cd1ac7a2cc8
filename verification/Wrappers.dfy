/** Small carriers shared by every component: an optional value, and a value or a thrown error. */
module Wrappers {
  datatype Option<+T> = None | Some(value: T)

  /** The result of a call that returns a value or throws. */
  datatype Result<+T> = Ok(value: T) | Throws(message: string)
}
