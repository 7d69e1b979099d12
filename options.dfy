/** The answer of one pull on a generator: a value, or the end of the sequence. */
module Options {
  datatype Option<+T> = None | Some(value: T)
}
