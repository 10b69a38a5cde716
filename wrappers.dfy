/** The optional value that the crate's `Option` returns. */
module Wrappers {

  datatype Option<+T> = None | Some(value: T)
}
