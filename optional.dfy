/** A value that may be absent: JavaScript's null/undefined for a header or a JSON member. */
module Optional {
  datatype Option<+T> = None | Some(value: T)
}
