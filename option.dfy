/** An optional value, for partial inverses (parsers) in the other modules. */
module Optional {
  datatype Option<T> = None | Some(value: T)
}
