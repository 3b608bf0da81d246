/** The optional value used for settings that may be missing and for
    pointers that may be null. */
module Wrappers {
  datatype Option<T> = None | Some(value: T)
}
