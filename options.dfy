/** The optional value used for the URN's address and by the reference parsers. */
module Options {
  datatype Option<+T> = None | Some(value: T)
}
