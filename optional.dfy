/** A value that may be absent, for JavaScript's `undefined` and `null`. */
module Optional {
  datatype Option<+T> = None | Some(value: T)
}
