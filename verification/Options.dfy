/** The optional value used throughout the model in place of a nil pointer or an absent file. */
module Options {
  datatype Option<+T> = None | Some(value: T)
}
