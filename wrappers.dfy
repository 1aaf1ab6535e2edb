/** A value that PHP would represent as "something or null". */
module Wrappers {

  datatype Option<+T> = None | Some(value: T)
}
