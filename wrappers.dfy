/** The optional value used where the source tests a value with `||`. */
module Wrappers {

  datatype Option<+T> = None | Some(value: T)
}
