/** The optional value used for a DOM lookup that may find nothing. */
module Wrappers {

  datatype Option<+T> = None | Some(value: T)
}
