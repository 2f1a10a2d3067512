/** A value that may be missing, as a null cell of the listening export is. */
module Optional {

  datatype Option<+T> = None | Some(value: T)
}
