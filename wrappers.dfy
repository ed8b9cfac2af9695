/** Optional values: a failed fetch or a missing file is `None`. */
module Wrappers {

  datatype Option<+T> = None | Some(value: T)
}
