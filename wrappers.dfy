/** The optional value used for "no line found" and for the not-yet-set last command. */
module Wrappers {
  datatype Option<T> = None | Some(value: T)
}
