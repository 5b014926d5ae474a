/** Optional values: Python's `None` and the absent-key outcomes of dictionary lookups. */
module Wrappers {

  datatype Option<+T> = None | Some(value: T)
}
