/** The optional value used where a check yields either a message or nothing. */
module Wrappers {
  datatype Option<+T> = None | Some(value: T)
}
