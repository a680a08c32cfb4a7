/** The usual optional value: an element that may be absent from the page. */
module Optional {

  datatype Option<+T> = None | Some(value: T)
}
