/** The optional value used throughout the model for JavaScript's "present or undefined". */
module Wrappers {
  datatype Option<+T> = None | Some(value: T)
}
