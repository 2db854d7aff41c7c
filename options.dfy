/** The optional value used for Python's `None`-initialised globals and references. */
module Options {
  datatype Option<T> = None | Some(value: T)
}
