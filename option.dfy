/** The optional value used wherever the backend's data may hold `None`. */
module Optional {
  datatype Option<+T> = None | Some(value: T)
}
