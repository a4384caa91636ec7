/** The optional value used wherever the application holds `T | null`. */
module Wrappers {

  datatype Option<+T> = None | Some(value: T)
}
