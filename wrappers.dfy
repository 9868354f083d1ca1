/** The optional value used wherever a lookup in the viewer can come up empty. */
module Wrappers {
  datatype Option<+T> = None | Some(value: T)
}
