/** A value or nothing, for NULL pointers, free locks and unarmed timers. */
module Options {
  datatype Option<+T> = None | Some(value: T)
}
