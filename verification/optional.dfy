/** The usual Some/None wrapper, used where the source returns None or raises. */
module Optional {
  datatype Option<+T> = None | Some(value: T)
}
