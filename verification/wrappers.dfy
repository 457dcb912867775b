/** Failure-carrying values shared by the model.
    - Option: a value that may be absent (Go's nil pointer, a failed parse).
    - Result: Go's `(value, error)` pair where exactly one side is meaningful.
    - Call: the outcome of a Go call that may `panic`, which aborts the process
      instead of returning an error to the caller. */
module Wrappers {

  datatype Option<+T> = None | Some(value: T)

  datatype Result<+T> = Success(value: T) | Failure(error: string)

  datatype Call<+T> = Returned(value: T) | Panicked(reason: string)
}
