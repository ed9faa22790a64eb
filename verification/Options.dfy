/** The optional value used wherever the services return a pointer or an error that may be nil. */
module Options {
  datatype Option<+T> = None | Some(value: T)
}
