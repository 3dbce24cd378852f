/** The optional value used where the editor holds `None` or an object. */
module Options {

  datatype Option<+T> = None | Some(value: T)
}
