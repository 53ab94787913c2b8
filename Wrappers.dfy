/** Optional values: a field or a stored key that may be absent. */
module Wrappers {

  datatype Option<+T> = None | Some(value: T)
}
