// Rust's `Option` and `Result`, which every modelled operation returns.
module Wrappers {

  datatype Option<+T> = None | Some(value: T) {
    function UnwrapOr(default: T): T {
      if Some? then value else default
    }
  }

  datatype Result<+T, +E> = Ok(value: T) | Err(error: E)

  /** `Infallible`, the error type of an operation that cannot fail. Rust's
      type has no values; Dafny types are never empty, so this one has a
      single value, which no operation of the model returns. */
  datatype Infallible = Infallible

  /** `Option::map` */
  function MapOption<T, U>(o: Option<T>, f: T -> U): Option<U> {
    if o.Some? then Some(f(o.value)) else None
  }
}
