/** Optional values, used where the source has a nil-able pointer or a second "ok" result. */
module Wrappers {
  datatype Option<+T> = None | Some(value: T)
}
