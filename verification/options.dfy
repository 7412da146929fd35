/** The optional value used wherever the plugin works with Python's `None`. */
module Options {

  datatype Option<+T> = None | Some(value: T)
}
