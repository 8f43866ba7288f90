/** Optional values: a missing dictionary key, an absent environment variable,
    a `None` argument. */
module Wrappers {

  datatype Option<+T> = None | Some(value: T)
}
