/** The optional value used wherever the programs store "a value or nothing". */
module Wrappers {
  datatype Option<+T> = None | Some(value: T)
}
