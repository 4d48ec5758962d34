/** An optional value: Python's `None`, JavaScript's `null`/`undefined`. */
module Optional {

  datatype Option<T> = None | Some(value: T)
}
