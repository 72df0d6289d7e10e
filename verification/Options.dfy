/** A value that may be absent: Python's None, or a reading that could not be taken. */
module Options {
  datatype Option<+T> = None | Some(value: T)
}
