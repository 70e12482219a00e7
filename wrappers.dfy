/** The optional value used wherever the program stores None or returns None. */
module Wrappers {

  datatype Option<+T> = None | Some(value: T)
}
