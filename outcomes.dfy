/** How a Rust panic surfaces in the model: an operation whose source can
    panic returns a `Result`, and the `Panic` says which kind of panic.
    `Option` is Rust's `Option`. */
module Outcomes {

  datatype Panic =
    | DimensionMismatch   // an explicit `panic!` on vectors of different lengths
    | AssertEqFailed      // an `assert_eq!` whose two sides differ
    | IndexOutOfBounds    // indexing or slicing past the end of a `Vec` or array
    | SubtractOverflow    // `usize`/`u32` subtraction below zero (debug build)
    | MultiplyOverflow    // `u32` multiplication past 2^32 - 1 (debug build)
    | DivideByZero        // integer division by zero
    | NotImplemented      // reaching `todo!()`

  datatype Result<+T> = Ok(value: T) | Err(panic: Panic)

  datatype Option<+T> = None | Some(value: T)
}
