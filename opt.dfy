/** Optional values, for pointers that may be NULL and lookups that may
  * find nothing. */
module Opt {
  datatype Option<T> = None | Some(value: T)
}
