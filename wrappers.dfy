/** Optional values, used for the `None` that the Docker API can return. */
module Wrappers {
  datatype Option<+T> = None | Some(value: T)
}
