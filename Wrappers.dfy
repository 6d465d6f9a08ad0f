/** The optional value used for the backtrace an error may carry. */
module Wrappers {

  datatype Option<+T> = None | Some(value: T)
}
