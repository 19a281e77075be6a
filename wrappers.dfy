/** Optional values, results and the fatal conditions (Rust panics) of the crate. */
module Wrappers {

  datatype Option<+T> = None | Some(value: T)

  /** Why a call aborts.  A Rust `panic!`/`fail!` or a failed bounds check is
      modelled as a returned `Panic` instead of a precondition. */
  datatype Panic =
    | TooSmallUniformSlice(count: nat, expected: nat, actual: nat)  // validate_uniform
    | IndexOutOfBounds(index: nat, length: nat)                      // `blocks[index]`
    | SliceOutOfBounds(end: int, length: nat)                        // `slice_to_or_fail`
    | LinkFailed                                                     // older get_link_status
    | CounterOverflow                                                // `counter += 1` on a u32

  datatype Result<+T> = Ok(value: T) | Err(panic: Panic)

  /** A check that either passes or aborts. */
  datatype Outcome = Pass | Fail(panic: Panic)
}
