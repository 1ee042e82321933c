/** The optional value used wherever JavaScript has `null` or a missing result. */
module Wrappers {

  datatype Option<+T> = None | Some(value: T)
}
