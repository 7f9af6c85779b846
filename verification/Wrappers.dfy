/** Optional values: Go's zero time, nil pointers and nil errors. */
module Wrappers {
  datatype Option<+T> = None | Some(value: T)
}
