/** An optional value, for Python's `None` and for "no kernel selected". */
module Optional {
  datatype Option<T> = None | Some(value: T)
}
