/** Optional values, standing in for Go's nil-able errors, pointers and interfaces. */
module Wrappers {

  datatype Option<+T> = None | Some(value: T)
}
