/** Result and error values shared by the model.

    Go functions of the repository return `(value, error)` pairs; here they
    return a `Result`, and an operation that only reports failure returns an
    `Option<Error>` (None is Go's `nil`). The error values keep the structure
    that the repository builds them with, so that a contract can say which
    error is returned and what it wraps. */
module Errors {

  datatype Option<+T> = None | Some(value: T)

  /** The categories of the repository's own error package. */
  datatype ErrorKind = NetworkError | IOError | STLError | ValidationError

  /** Why `strconv.Atoi` rejected its input. */
  datatype NumReason = ErrSyntax | ErrRange

  datatype Error =
    /** `fmt.Errorf` with a plain message */
    | Message(text: string)
    /** `fmt.Errorf("<context>: %w", inner)` */
    | Wrapped(context: string, inner: Error)
    /** the repository's `errors.New(kind, message, cause)` */
    | Kinded(kind: ErrorKind, text: string, cause: Option<Error>)
    /** `strconv.Atoi`'s `*NumError` for the given input */
    | NumError(input: string, reason: NumReason)
    /** an error produced by a collaborator outside the model */
    | External(description: string)

  datatype Result<+T> = Ok(value: T) | Err(error: Error) {
    predicate IsFailure() {
      Err?
    }

    function PropagateFailure<U>(): Result<U>
      requires Err?
    {
      Err(error)
    }

    function Extract(): T
      requires Ok?
    {
      value
    }
  }
}
