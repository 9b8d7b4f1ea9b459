/** Optional values: a missing lookup result, a cancelled prompt, an absent preview element. */
module Wrappers {
  datatype Option<+T> = None | Some(value: T)
}
