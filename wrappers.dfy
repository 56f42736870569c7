/** Optional values and fallible results shared by every module of the engine model. */
module Wrappers {

  /** Rust's `Option<T>`. */
  datatype Option<+T> = None | Some(value: T)

  /**
   * The conditions under which the engine calls `unwrap()` on a `None` and
   * panics. The model returns them as errors instead of aborting.
   */
  datatype Error =
    | EmptyLayoutStack   // `Vec::pop` / `last_mut` on an empty layout stack
    | NoIndexBuffer      // `get_index_buffer` before `set_index_buffer`

  /** The outcome of an operation that panics in the engine on misuse. */
  datatype Result<+T> = Ok(value: T) | Err(error: Error)

  /** The outcome of an operation that returns nothing in the engine but panics on misuse. */
  datatype Outcome = Pass | Fail(error: Error)
}
