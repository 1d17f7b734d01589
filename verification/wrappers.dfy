/** Optional values, for properties a device may or may not carry. */
module Wrappers {
  datatype Option<T> = None | Some(value: T)
}
