/** The optional value used throughout the model for Go's nil pointers, nil
    channels and `value, ok` pairs. */
module Options {
  datatype Option<+T> = None | Some(value: T)
}
