/** Optional values, for "absent" in the source (an empty dict, no matching band). */
module Wrappers {
  datatype Option<+T> = None | Some(value: T)
}
