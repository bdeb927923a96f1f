/** Rust's `Option<T>`: the optional fields of a payload and the outcome of
    reading upload content. */
module Wrappers {

  datatype Option<+T> = None | Some(value: T)
}
