/** A value that may be missing: JavaScript's `null` and `undefined`. */
module Optional {
  datatype Option<T> = None | Some(value: T)
}
