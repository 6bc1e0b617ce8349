/** An optional value, for results that the source may leave unset. */
module Options {
  datatype Option<T> = None | Some(value: T)
}
