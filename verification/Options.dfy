// A value that may be absent: SQL NULL, a missing key, a call that throws.
module Options {
  datatype Option<+T> = None | Some(value: T)
}
