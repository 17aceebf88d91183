/** The "value or None" wrapper used for the tracker's optional fields. */
module Optional {

  datatype Option<+T> = None | Some(value: T)

}
