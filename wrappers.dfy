/** Optional values, standing in for the nil-able pointers and errors of the Go code. */
module Wrappers {

  datatype Option<+T> = None | Some(value: T)
}
