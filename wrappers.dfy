/** Optional values: Python's `None` next to a real value. */
module Wrappers {
  datatype Option<+T> = None | Some(value: T)
}
