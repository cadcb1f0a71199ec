/** The optional value used for the browser's storage slot and for `_validate`'s result. */
module Wrappers {
  datatype Option<+T> = None | Some(value: T)
}
