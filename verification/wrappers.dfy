/** Optional values: an absent request field, a failed rendering, a missing map entry. */
module Wrappers {
  datatype Option<+T> = None | Some(value: T)
}
