/** The option type used where the repository has `null`, `undefined` or a thrown parse error. */
module Options {
  datatype Option<+T> = None | Some(value: T)
}
