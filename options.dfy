/** An optional value; for JavaScript's `undefined` result or a missing argument. */
module Options {

  datatype Option<T> = None | Some(value: T)
}
