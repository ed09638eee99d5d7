/** Optional values: a result that may be missing, an error that may not have happened. */
module Options {
  datatype Option<+T> = None | Some(value: T)
}
