/** The optional value the Python code expresses with `None`. */
module Base {

  datatype Option<T> = None | Some(value: T)
}
