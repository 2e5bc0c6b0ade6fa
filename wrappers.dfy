/** The optional value used for dialogs the user may cancel and for parses that may fail. */
module Wrappers {
  datatype Option<+T> = None | Some(value: T)
}
