/** Optional values, used for nullable attributes and lookups that may miss. */
module Wrappers {

  datatype Option<+T> = None | Some(value: T)
}
