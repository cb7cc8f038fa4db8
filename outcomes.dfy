/** The ways a call of the core can end: a Rust `Result`, an `Option`, and the
    panics that `unwrap()`, `panic!`, slice indexing and checked arithmetic
    raise, which abort the program instead of returning. */
module Outcomes {
  import opened Vk

  datatype Option<+T> = None | Some(value: T)

  datatype Result<+T, +E> = Ok(value: T) | Err(error: E)

  /** The answer of a driver query: the value, or the VkResult error code. */
  type Query<T> = Result<T, VkResult>

  /** Why a Rust panic happened. */
  datatype Panic =
    | UnwrapFailed(code: VkResult)        // `.unwrap()` on an `Err(code)` from the driver
    | UnwrapNone                          // `.unwrap()` on `None`
    | Explicit(message: string)           // `panic!("{}", err)` with the error's message
    | IndexOutOfBounds(index: nat, len: nat)
    | AddOverflow                         // `+` on `u32` overflowing in a debug build

  /** A call that either returns a value or panics. */
  datatype Run<+T> = Returned(value: T) | Panicked(panic: Panic)
}
