/** Optional values, for Go's nil pointers and for lookups that can fail. */
module Wrappers {

  datatype Option<+T> = None | Some(value: T)
}
