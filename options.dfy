// The optional value the models return where the source returns `null`
// or `undefined`.

module Options {
  datatype Option<T> = None | Some(value: T)
}
