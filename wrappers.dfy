/** The optional value used where the program reads a key that may be absent. */
module Wrappers {

  datatype Option<+T> = None | Some(value: T)
}
