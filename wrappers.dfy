/** Optional values: JavaScript's `undefined` lookups become `None`. */
module Wrappers {
  datatype Option<+T> = None | Some(value: T)
}
