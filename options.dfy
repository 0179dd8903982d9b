/** A value that may be missing: stands for the JavaScript fields that start out as `null`. */
module Options {
  datatype Option<T> = None | Some(value: T)
}
