/** The optional value used wherever the editor has "nothing here" (no element, no timer). */
module Options {
  datatype Option<T> = None | Some(value: T)
}
