/** Optional values, used where the source keeps a sentinel (NaN, undefined). */
module Wrappers {
  datatype Option<+T> = None | Some(value: T)
}
