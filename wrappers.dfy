/** The `Option` wrapper used for the pending click and lookups. */
module Wrappers {
  datatype Option<+T> = None | Some(value: T)
}
