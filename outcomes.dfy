/**
 * Optional values and the exceptions the backend services throw, as
 * values. A service call either returns its result or raises one of these.
 */
module Outcomes {

  datatype Option<T> = None | Some(value: T)
  {
    function GetOr(default: T): (r: T)
      ensures this.Some? ==> r == value
      ensures this.None? ==> r == default
    {
      match this
      case Some(v) => v
      case None => default
    }
  }

  /**
   * The exception classes of the backend. Every case carries the message
   * the code builds; the remaining fields are those the exception class
   * declares.
   */
  datatype Failure =
    | NotFound(message: string, errorCode: string)
    | BadRequest(message: string)
    | InsufficientStock(message: string, rawMaterialCode: string, available: int, requested: int)
    | Unauthorized(message: string)
    | Concurrency(message: string)
      /** Bean Validation rejecting an entity when it is persisted or flushed. */
    | ConstraintViolation(message: string)

  /** `NotFoundException(message)` with its default error code. */
  function NotFoundDefault(message: string): (f: Failure)
    ensures f.NotFound? && f.message == message && f.errorCode == "NOT_FOUND"
  {
    NotFound(message, "NOT_FOUND")
  }

  datatype Result<T> = Ok(value: T) | Err(failure: Failure)
}
