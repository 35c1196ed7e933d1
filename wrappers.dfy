/** Optional values, for the places where the components test a value that may be null or missing. */
module Wrappers {
  datatype Option<+T> = None | Some(value: T)
}
