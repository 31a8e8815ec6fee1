/** The optional value the source returns from its lookups (Rust's `Option`). */
module Wrappers {

  datatype Option<+T> = None | Some(value: T)
}
