/** The optional value shared by the display and the state machine. */
module Wrappers {
  datatype Option<T> = None | Some(value: T)
}
