/** Failure-carrying values shared by the frontend and backend models. */
module Common {

  datatype Option<+T> = None | Some(value: T)

  /** The outcome of a call that either returns normally or raises. */
  datatype Result<+T, +E> = Ok(value: T) | Err(error: E)

  /** What a rejected promise carries in the frontend: an `Error` instance with
      its message, or some other thrown value. */
  datatype Thrown = Error(message: string) | NonError

  /** `error instanceof Error ? error.message : fallback` */
  function ErrorMessage(t: Thrown, fallback: string): (m: string)
    ensures t.Error? ==> m == t.message
    ensures t.NonError? ==> m == fallback
  {
    match t
    case Error(msg) => msg
    case NonError => fallback
  }
}
