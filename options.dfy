/** An optional value, used where the source's regex match may fail. */
module Options {
  datatype Option<+T> = None | Some(value: T)
}
