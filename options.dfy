/** The optional value used wherever the title pane holds or returns a possibly-null reference. */
module Options {
  datatype Option<+T> = None | Some(value: T)
}
