/** Optional values, used for Go's `(value, error)` results and for nil references. */
module Wrappers {

  datatype Option<+T> = None | Some(value: T)
}
