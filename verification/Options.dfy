/** Optional values, standing for Go's pointers that may be nil and for lookups that may miss. */
module Options {
  datatype Option<+T> = None | Some(value: T)
}
