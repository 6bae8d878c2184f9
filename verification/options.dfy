/** Optional values: the result of a read that can fail or find nothing. */
module Options {

  datatype Option<+T> = None | Some(value: T)
}
