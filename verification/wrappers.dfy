/** The optional value used throughout the model, playing the part of Rust's `Option`. */
module Wrappers {

  datatype Option<+T> = None | Some(value: T)
}
