/** The value-or-nothing type that stands for Python's `None` returns. */
module Optional {

  datatype Option<+T> = None | Some(value: T)
}
