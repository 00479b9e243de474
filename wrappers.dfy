/** Option, for the absent values and the optional errors of the Go code. */
module Wrappers {

  datatype Option<+T> = None | Some(value: T)
}
