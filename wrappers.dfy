/** Optional values: Python's `None` and JavaScript's missing/null values. */
module Wrappers {

  datatype Option<+T> = None | Some(value: T)
}
