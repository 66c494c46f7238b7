/** The optional value used where the source returns a null pointer or an owner may be absent. */
module Options {
  datatype Option<+T> = None | Some(value: T)
}
