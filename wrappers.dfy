/** Optional values: Go's nil error and nil-or-value results. */
module Wrappers {

  datatype Option<+T> = None | Some(value: T)
}
