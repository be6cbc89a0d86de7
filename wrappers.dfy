/** The optional value the Rust source expresses with `Option<T>`. */
module Wrappers {

  datatype Option<+T> = None | Some(value: T)
}
