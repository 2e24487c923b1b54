/** Optional values: a pointer that may be null, a lookup that may miss. */
module Options {
  datatype Option<+T> = None | Some(value: T)
}
