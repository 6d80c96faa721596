/** The optional value used where the source either does something or does not. */
module Wrappers {

  datatype Option<+T> = None | Some(value: T)
}
