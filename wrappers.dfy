/** The optional value used where the component holds `null` or a field may be absent. */
module Wrappers {
  datatype Option<+T> = None | Some(value: T)
}
