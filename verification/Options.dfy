/** An optional value: the nullable fields and answers of the program. */
module Options {
  datatype Option<+T> = None | Some(value: T)
}
