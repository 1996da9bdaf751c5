/** The optional value used by the other modules for a missing entry or a refused request. */
module Options {
  datatype Option<+T> = None | Some(value: T)
}
