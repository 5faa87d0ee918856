/** Failure-carrying datatypes shared by the request handlers.

    The handlers answer with an HTTP response; here a successful response is
    `Ok(value)` and an error response is `Err(kind)`, where the kind is the
    reason the handler (or the database underneath it) refused the request.
 */
module Results {

  /** A nullable column (`null=True`) or a request field the client may
      leave out. */
  datatype Option<+T> = None | Some(value: T) {

    /** The field as sent, or the handler's fallback when it was left out. */
    function GetOr(default: T): T {
      match this
      case Some(v) => v
      case None => default
    }
  }

  /** Why a request was refused.
      - NotFound: a referenced id does not exist (HTTP 404).
      - Forbidden: the requester lacks the role or the ownership (HTTP 403).
      - InvalidArgument: an input is out of range (HTTP 400).
      - ConstraintViolation: the database rejects a row (a negative value
        in an unsigned column).
      - MultipleObjectsReturned: a find-or-create lookup matched two rows. */
  datatype Error =
    | NotFound
    | Forbidden
    | InvalidArgument
    | ConstraintViolation
    | MultipleObjectsReturned

  datatype Result<+T> = Ok(value: T) | Err(error: Error)
}
