/** The optional value used across the model: a JavaScript property that may be
    undefined or null, or a parse that may fail. */
module Optional {
  datatype Option<T> = None | Some(value: T)
}
