/** Option and Result, the two failure-carrying datatypes used throughout the model
    (Rust's Option<T> and Result<T, E>). */
module Wrappers {

  datatype Option<+T> = None | Some(value: T) {
    /** Rust's Option::or_else with an already-evaluated alternative. */
    function OrElse(other: Option<T>): Option<T> {
      if Some? then this else other
    }

    /** Rust's Option::unwrap_or. */
    function GetOr(default: T): T {
      if Some? then value else default
    }
  }

  datatype Result<+T, +E> = Ok(value: T) | Err(error: E)
}
