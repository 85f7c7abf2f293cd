/** Optional values: the source's `None` returns and missing dictionary entries. */
module Wrappers {
  datatype Option<+T> = None | Some(value: T)
}
