/** A value that may be absent: a nil pointer, a missing status field, an error without a result. */
module Optional {

  datatype Option<+T> = None | Some(value: T)
}
