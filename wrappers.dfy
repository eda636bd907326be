/** Option and Result in the shape Rust gives them (`Some`/`None`, `Ok`/`Err`). */
module Wrappers {

  datatype Option<+T> = None | Some(value: T)

  /** `Result<T, E>`; the crate's alias `Result<T, E = Error>` only fixes a
      default for `E`, which Dafny has no syntax for, so every use names `E`. */
  datatype Result<+T, +E> = Ok(value: T) | Err(error: E)
}

/** A `FnOnce() -> T` closure: the value it produces and how often it was called.
    The call counter is what the laziness of `wrap_with` and `add_help_with`
    is stated about. */
module Closures {

  class Thunk<T> {
    const value: T
    var calls: nat

    constructor (v: T)
      ensures value == v && calls == 0
    {
      value := v;
      calls := 0;
    }

    method Call() returns (v: T)
      modifies this
      ensures v == value
      ensures calls == old(calls) + 1
    {
      v := value;
      calls := calls + 1;
    }
  }
}
