/** The optional value used wherever the dashboard reports "not found". */
module Wrappers {

  datatype Option<+T> = None | Some(value: T)
}
