/** The optional value used where the source returns a value or nothing. */
module Wrappers {

  datatype Option<+T> = None | Some(value: T)
}
