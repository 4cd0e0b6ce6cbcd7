/** Optional values: a missing PIN, a failed number parse, a cancelled prompt. */
module Wrappers {
  datatype Option<+T> = None | Some(value: T)
}
