/** The optional values that nullable columns and pointer fields stand for. */
module Options {
  datatype Option<+T> = None | Some(value: T)
}
