/** Optional values: the model's stand-in for `T | null`. */
module Wrappers {
  datatype Option<+T> = None | Some(value: T)
}
