/** The optional value used wherever the original code has `undefined`. */
module Wrappers {
  datatype Option<+T> = None | Some(value: T)
}
