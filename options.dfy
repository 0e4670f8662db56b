/** The Some/None wrapper used wherever the game stores Python's `None`. */
module Options {
  datatype Option<T> = None | Some(value: T)
}
