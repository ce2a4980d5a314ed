/** Optional values, used where the component holds `null` or a record. */
module Wrappers {

  datatype Option<+T> = None | Some(value: T)
}
