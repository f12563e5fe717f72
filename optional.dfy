/** A value that may be absent: JavaScript's `null`/`undefined`, or NaN for a parsed number. */
module Optional {

  datatype Option<+T> = None | Some(value: T)
}
