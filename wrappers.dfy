/** Optional values: the pointer position is absent while the cursor is outside the panel. */
module Wrappers {
  datatype Option<+T> = None | Some(value: T)
}
