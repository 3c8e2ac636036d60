/** The one wrapper type shared by the modules: an SQL column that may be NULL. */
module Options {
  datatype Option<+T> = None | Some(value: T)
}
