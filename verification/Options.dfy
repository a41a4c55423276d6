/** An optional value: an absent row, an unanswered query, an out-parameter left alone. */
module Options {
  datatype Option<+T> = None | Some(value: T)
}
