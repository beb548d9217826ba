/** Optional values: a field a parsed payload may lack, a cell that may be unset. */
module Wrappers {

  datatype Option<+T> = None | Some(value: T)
}
