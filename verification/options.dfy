// A value that may be absent: null, undefined, or a row that was not found.
module Options {
  datatype Option<+T> = None | Some(value: T)
}
