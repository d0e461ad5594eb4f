/** Optional values: Python's `None` and C#'s nullable references. */
module Wrappers {
  datatype Option<+T> = None | Some(value: T)
}
