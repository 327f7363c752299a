/** A value that may be absent: the model's stand-in for a Java reference
    that may be null, or for a call that may fail. */
module Optional {

  datatype Option<+T> = None | Some(value: T)
}
