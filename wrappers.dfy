/** A value that may be absent, used where the source keeps a nullable pointer to
    something it owns exclusively and deep-copies. */
module Wrappers {
  datatype Option<+T> = None | Some(value: T)
}
