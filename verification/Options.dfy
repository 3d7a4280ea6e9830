/** The absent-or-present value used by every module of the model. */
module Options {
  datatype Option<+T> = None | Some(value: T)
}
