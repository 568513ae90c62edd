/** A value that may be absent: a store key that is unset reads as `None`. */
module Options {

  datatype Option<+T> = None | Some(value: T)
}
