/** The optional value used for `null` in the page's script. */
module Wrappers {
  datatype Option<+T> = None | Some(value: T)
}
