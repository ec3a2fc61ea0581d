/** Optional values: a Python `None` or a missing dictionary key becomes `None`. */
module Wrappers {
  datatype Option<+T> = None | Some(value: T)
}
