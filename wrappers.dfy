/** Failure-carrying results shared by the emulator modules: a fatal condition
    of the emulator (a Rust `panic!` on a closed table) is returned as a value
    so that the model can state when it happens. */
module Wrappers {

  datatype Option<+T> = None | Some(value: T)

  /** A value, or the fatal error that stopped the emulator. */
  datatype Result<+T, +E> = Ok(value: T) | Err(error: E)

  /** Success without a value, or the fatal error that stopped the emulator. */
  datatype Outcome<+E> = Pass | Fail(error: E)
}
