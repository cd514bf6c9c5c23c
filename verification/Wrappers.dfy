module Wrappers {

  /** A value that may be missing: an optional field, an absent file, a result not there yet. */
  datatype Option<+T> = None | Some(value: T)
}
