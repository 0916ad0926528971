/** An optional value: `None` stands for an outcome the source does not produce a value for. */
module Options {

  datatype Option<+T> = None | Some(value: T)
}
