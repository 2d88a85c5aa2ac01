/** What the server code throws: instances of the application's error
    classes, other `Error` instances (only their message matters here), and
    thrown values that are not `Error`s at all. */
module AppErrors {
  import opened Wrappers

  datatype Thrown =
    | NotFoundError(message: string)
    | ValidationError(message: string)
    | BadRequestError(message: string)
    | UnauthorizedError(message: string)
    | ForbiddenError(message: string)
    | InternalServerError(message: string, requestId: Option<string>)
    | PlainError(message: string)
    | NotAnError
  {
    /** An `Error` instance of any class. */
    predicate IsError() {
      !NotAnError?
    }
  }
}
