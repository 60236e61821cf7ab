/** Optional values, used for partial decoding and for C's nullable pointers. */
module Wrappers {
  datatype Option<+T> = None | Some(value: T)
}
