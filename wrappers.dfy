/** Option and Result, and the reasons a Rust operation of the engine panics. */
module Wrappers {

  datatype Option<T> = None | Some(value: T)

  /** Why an operation aborts the process (a Rust `panic!`). */
  datatype Fault =
    | OutOfBounds   // an array index or the explicit bound checks of BlockMap::set
    | Overflow      // integer overflow or unsigned underflow (debug-build arithmetic)
    | UnwrapNone    // `Option::unwrap` on `None`
    | NoTexture     // a texture row or face type asked of `Air`

  /** The outcome of an operation that may panic. */
  datatype Result<T> = Ok(value: T) | Err(fault: Fault) {
    predicate IsFailure() { Err? }

    function PropagateFailure<U>(): Result<U>
      requires Err?
    {
      Err(fault)
    }

    function Extract(): T
      requires Ok?
    {
      value
    }
  }
}
