/** The optional value used for absent inputs (a nil pointer, an unset setting). */
module Wrappers {
  datatype Option<T> = None | Some(value: T)
}
