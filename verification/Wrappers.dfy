/** The optional values the other modules share. */
module Wrappers {

  /** A value that may be absent: a nil pointer, a missing key, an unset field. */
  datatype Option<+T> = None | Some(value: T)
}
