/** The optional value used throughout the model for "no entry" and "no value". */
module Options {
  datatype Option<T> = None | Some(value: T)
}
