/** The optional value used for the fields of a form record that may be unset. */
module Wrappers {
  datatype Option<+T> = None | Some(value: T)
}
