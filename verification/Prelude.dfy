/** Option and Result, and the scalar types shared by every module. */
module Prelude {

  /** Instants and durations, in whole seconds. */
  type Time = nat

  datatype Option<+T> = None | Some(value: T)

  datatype Result<+T, +E> = Ok(value: T) | Err(error: E)

  const DAY: Time := 24 * 3600
}
