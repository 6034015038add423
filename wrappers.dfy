/** Optional values: an absent SQL column, a failed decode, a dropped event. */
module Wrappers {
  datatype Option<+T> = None | Some(value: T)
}
