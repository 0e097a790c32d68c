/** The optional value used wherever the program passes a nil pointer or an "ok" flag. */
module Options {
  datatype Option<+T> = None | Some(value: T)
}
