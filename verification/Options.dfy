/** An optional value; as a result, `None` is a refused operation. */
module Options {
  datatype Option<+T> = None | Some(value: T)
}
