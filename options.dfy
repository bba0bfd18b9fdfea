/** The `option` type of the runtime library. */
module Options {

  datatype Option<T> = None | Some(value: T)
}
