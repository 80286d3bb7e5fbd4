/** The optional value used throughout the model in place of a Go nil or a comma-ok pair. */
module Options {
  datatype Option<+T> = None | Some(value: T)
}
