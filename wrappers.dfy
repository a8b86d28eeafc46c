/** Optional values, for the cascade result before any rule has fired. */
module Wrappers {

  datatype Option<+T> = None | Some(value: T)
}
