/** The optional value used wherever the Python code stores `None`. */
module Options {
  datatype Option<+T> = None | Some(value: T)
}
