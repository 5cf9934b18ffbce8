/** An optional value: `None` stands for the source's `null` / absent callback. */
module Options {

  datatype Option<+T> = None | Some(value: T)
}
