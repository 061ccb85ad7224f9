/** Python's optional attributes (`None` or a node). */
module Options {

  datatype Option<+T> = None | Some(value: T)
}
