/** Optional values, used where a parse can fail. */
module Wrappers {
  datatype Option<+T> = None | Some(value: T)
}
