/** A value that may be absent: Java's nullable reference, or a lookup that can miss. */
module Optional {

  datatype Option<+T> = None | Some(value: T)
}
