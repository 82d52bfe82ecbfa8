/** The Some/None type the other modules use for values the source leaves undefined. */
module Options {
  datatype Option<+T> = None | Some(value: T)
}
