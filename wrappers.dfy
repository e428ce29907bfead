/** Optional values, used wherever the original code returns `null` or leaves a key unset. */
module Wrappers {
  datatype Option<+T> = None | Some(value: T)
}
