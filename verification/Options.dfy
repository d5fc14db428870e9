/** A result that may be missing: NULL in the code, or an exit that the model returns from. */
module Options {
  datatype Option<+T> = None | Some(value: T)
}
