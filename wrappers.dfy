/** The optional value used for a result that may be missing: an encoding that
    failed, a string that does not parse as a number, a key that is not set. */
module Wrappers {
  datatype Option<+T> = None | Some(value: T)
}
