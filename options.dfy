/** The optional value used where the source returns `None` or may return nothing. */
module Options {

  datatype Option<+T> = None | Some(value: T)
}
