/** Optional values, for lookups and allocations that may find nothing. */
module Wrappers {
  datatype Option<T> = None | Some(value: T)
}
