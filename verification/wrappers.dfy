/** Optional values, used for the nullable extras of an Android intent. */
module Wrappers {
  datatype Option<+T> = None | Some(value: T)
}
