/** The two sum types of Rust's prelude that the assertions inspect:
    `Option` (`assert_some!`, `assert_none!`, and the value `Iterator::find`
    returns) and `Result` (`assert_ok!`, `assert_err!`). */
module Prelude {

  datatype Option<+T> = None | Some(value: T)

  datatype Result<+T, +E> = Ok(value: T) | Err(error: E)
}
