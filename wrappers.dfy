/** The optional value used where Python returns None or a lookup may miss. */
module Wrappers {
  datatype Option<+T> = None | Some(value: T)
}
