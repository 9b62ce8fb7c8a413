/** The optional value used throughout the model for "present or absent":
    a nil pointer, a type assertion that failed, an error return. */
module Wrappers {
  datatype Option<+T> = None | Some(value: T)
}
