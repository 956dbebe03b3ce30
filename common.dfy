/** Small result types shared by every module of the model. */
module Common {

  datatype Option<T> = None | Some(value: T)

  /** The outcome of checking a form: the values to pass on, or why the
      form was refused (the toast the user sees). */
  datatype Checked<T, E> = Accepted(value: T) | Rejected(error: E)

  /** What a call to the remote store that produces a value does: it resolves
      with that value or rejects (network error, non-2xx response). */
  datatype Reply<T> = Ok(value: T) | Failure

  /** What a call to the remote store whose result is the record it was sent
      does (the store echoes the body back): it resolves or it rejects. */
  datatype Outcome = Done | Failed
}
