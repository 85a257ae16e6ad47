/** Optional values: a missing due date, an absent type filter, an insert never submitted. */
module Wrappers {
  datatype Option<+T> = None | Some(value: T)
}
