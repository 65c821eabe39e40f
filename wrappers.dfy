/** The optional value used for Go's nil-or-error returns. */
module Wrappers {
  datatype Option<+T> = None | Some(value: T)
}
