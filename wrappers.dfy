/** Optional values: a dictionary key that may be missing, a reply that may not come. */
module Wrappers {

  datatype Option<+T> = None | Some(value: T)
}
