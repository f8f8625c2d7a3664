/** Optional values, for the source's `undefined` results. */
module Wrappers {
  datatype Option<T> = None | Some(value: T)
}
