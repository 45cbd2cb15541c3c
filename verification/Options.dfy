/** The usual optional value, used for the source's nil pointers, zero addresses and missing keys. */
module Options {
  datatype Option<+T> = None | Some(value: T)
}
