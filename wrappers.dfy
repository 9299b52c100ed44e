/** Optional values, used where the source tests whether data is present. */
module Wrappers {

  datatype Option<+T> = None | Some(value: T)
}
