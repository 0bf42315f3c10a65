/** A value that may be missing: an absent optional field or argument. */
module Wrappers {
  datatype Option<T> = None | Some(value: T)
}
