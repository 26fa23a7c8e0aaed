/** The optional value used for absent tool parameters and for partial inverses. */
module Wrappers {
  datatype Option<+T> = None | Some(value: T)
}
