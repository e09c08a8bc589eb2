/** The optional value used for absent angles and unset timestamps (Python's None). */
module Wrappers {
  datatype Option<+T> = None | Some(value: T)
}
