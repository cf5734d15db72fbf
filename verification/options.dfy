module Options {
  /** A value that may be absent, such as a `shared_ptr` that may be null. */
  datatype Option<+T> = None | Some(value: T)
}
