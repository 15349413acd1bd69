/** Vocabulary shared by every component: optional values and error values. */
module Basics {

  datatype Option<+T> = None | Some(value: T)

  /** The errors the library itself produces, and every other error as a `User` value.
      `wrapsCanceled` records whether `errors.Is(err, context.Canceled)` holds of it. */
  datatype Err =
    | Canceled
    | DeadlineExceeded
    | QueueClosed
    | QueueFull
    | QueueAlreadyRunning
    | QueueWorkerRequired
    | User(id: nat, wrapsCanceled: bool)

  predicate IsCanceled(e: Err) {
    e.Canceled? || (e.User? && e.wrapsCanceled)
  }

  /** The error of a context that has ended. */
  predicate IsCtxErr(e: Err) {
    e.Canceled? || e.DeadlineExceeded?
  }
}
