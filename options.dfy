/** The optional value used wherever the scripts return or accept null. */
module Options {

  datatype Option<T> = None | Some(value: T)
}
