/** Optional values, shared by the modules that look things up. */
module Wrappers {
  datatype Option<T> = None | Some(value: T)
}
