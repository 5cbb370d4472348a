/** A value that may be missing: Python's None, Rust's Option. */
module Options {
  datatype Option<+T> = None | Some(value: T)
}
