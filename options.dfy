/** The usual optional value, used for the relay's nullable slots and map lookups. */
module Options {
  datatype Option<+T> = None | Some(value: T)
}
