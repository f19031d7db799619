/** Values that may be absent: Python's None, missing keys and caught KeyErrors. */
module Options {
  datatype Option<+T> = None | Some(value: T)
}
