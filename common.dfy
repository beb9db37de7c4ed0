/**
 * Values shared by every endpoint of the pipeline: optional values, the
 * outcome of an endpoint (a value or an HTTP error status) and the status
 * codes the endpoints raise.
 */
module Common {

  datatype Option<+T> = None | Some(value: T) {
    function GetOr(default: T): T {
      match this
      case Some(v) => v
      case None => default
    }
  }

  /** What an endpoint answers: a value, or the status of the HTTPException it raises. */
  datatype Outcome<+T> = Ok(value: T) | Err(status: int)

  const BadRequest := 400
  const NotFound := 404
  const UnprocessableEntity := 422
  const InternalError := 500

  /**
   * Python's `if not field` for an optional string field of a request or of
   * the environment: a missing field and the empty string are both falsy.
   */
  predicate Given(field: Option<string>) {
    field.Some? && field.value != ""
  }
}
