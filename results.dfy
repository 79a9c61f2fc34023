/** Failure-carrying values shared by the codec and the two workers. */
module Results {

  datatype Option<+T> = None | Some(value: T)

  /** Rust's `Result`: a value, or the error that the `?` operator propagates. */
  datatype Result<+T, +E> = Ok(value: T) | Err(error: E)

  /** How one job handler ends: `Ok(())`, `Err(reason)` (logged by the event loop,
      which then carries on), or a panic that stops the worker task. */
  datatype Outcome = Done | Failed(reason: string) | Panicked(reason: string)
}
