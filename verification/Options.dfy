/** The conventional optional value, used wherever the source has an `Option`. */
module Options {
  datatype Option<+T> = None | Some(value: T)
}
