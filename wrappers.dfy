/** Optional values, used for a Python value that may be `None` or a key that may be missing. */
module Wrappers {

  datatype Option<+T> = None | Some(value: T)
}
