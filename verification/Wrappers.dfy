/** The optional value used throughout the project in place of Rust's `Option`. */
module Wrappers {

  datatype Option<+T> = None | Some(value: T)
}
