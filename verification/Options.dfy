/** The optional value shared by the models: Go's nil pointers and missing keys. */
module Options {
  datatype Option<+T> = None | Some(value: T)
}
