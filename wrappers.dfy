/** Optional values: a reference that may be null in the engine. */
module Wrappers {
  datatype Option<+T> = None | Some(value: T)
}
