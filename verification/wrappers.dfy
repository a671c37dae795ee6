/** The optional value used wherever the scripts test for `undefined`, `null` or "not found". */
module Wrappers {
  datatype Option<+T> = None | Some(value: T)
}
