/** The usual optional value, for partial operations such as argument decoding. */
module Options {
  datatype Option<+T> = None | Some(value: T)
}
