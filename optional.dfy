/** A value that may be absent: the model of an optional field (`field?: T`) or a nullable result. */
module Optional {

  datatype Option<+T> = None | Some(value: T)
}
