/** An optional value: a lookup that may find nothing, a parse that may fail. */
module Options {
  datatype Option<T> = None | Some(value: T)
}
