/** Optional results, for queries and conversions that may find nothing. */
module Wrappers {

  datatype Option<+T> = None | Some(value: T)
}
