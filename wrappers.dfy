/** Optional values, standing in for Go's nil references and nil errors. */
module Wrappers {
  datatype Option<+T> = None | Some(value: T)
}
