/** A value that may be absent: the model of a nullable reference or React state. */
module Optional {
  datatype Option<+T> = None | Some(value: T)
}
