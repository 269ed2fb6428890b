/** The usual optional value. */
module Options {

  datatype Option<T> = None | Some(value: T)
}
