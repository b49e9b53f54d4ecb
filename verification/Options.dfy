// The optional value used wherever the program passes `null` or `undefined`.
module Options {
  datatype Option<+T> = None | Some(value: T)
}
