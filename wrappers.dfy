/** The Option datatype used wherever an external call may raise instead of answering. */
module Wrappers {

  datatype Option<+T> = None | Some(value: T)
}
