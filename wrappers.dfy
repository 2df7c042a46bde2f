/** The optional value used for nullable variables and for the outcome of a partial parse. */
module Wrappers {
  datatype Option<+T> = None | Some(value: T)
}
