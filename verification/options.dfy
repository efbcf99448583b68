/** An optional value: a store search or an inventory slot that may hold nothing. */
module Options {
  datatype Option<+T> = None | Some(value: T)
}
