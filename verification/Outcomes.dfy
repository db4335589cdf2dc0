/** Values shared by every layer of the model: an optional value, the exceptions the
    library itself raises, and what a completed shared state holds. */
module Outcomes {

  datatype Option<+T> = None | Some(value: T)

  /** `BrokenPromise` and `NoSharedState` are the future_errc broken_promise and no_state; `UserError`
      stands for any other exception thrown by a user function or given to set_exception. */
  datatype Exn = BrokenPromise | NoSharedState | UserError(code: int)

  /** What `value_ref`/`exception` yield for a ready state. */
  datatype Outcome = Value(v: int) | Failure(e: Exn)
}

/** The storage of one shared_state seen on its own: empty, a value, an inner state the result
    is delegated to, or an exception. */
module StoredResults {
  import opened Outcomes

  datatype Stored = Empty | HasValue(v: int) | HasInner | HasError(e: Exn)
}
