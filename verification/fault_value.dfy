/**
 * The older generation of fault constructors (pkg/fault/instances.go).
 * Each takes a message and a cause and returns a Fault by value; callers
 * that return one as an `error` produce `FaultVal`.
 */
module FaultValue {
  import opened Wrappers
  import opened Fault

  function NewConflict(msg: string, cause: Option<Error>): Fault {
    New(StatusConflict, Conflict, msg, cause)
  }

  function NewUnprocessableEntity(msg: string, cause: Option<Error>): Fault {
    New(StatusUnprocessableEntity, UnprocessableEntity, msg, cause)
  }

  function NewBadRequest(msg: string, cause: Option<Error>): Fault {
    New(StatusBadRequest, BadRequest, msg, cause)
  }

  function NewNotFound(msg: string, cause: Option<Error>): Fault {
    New(StatusNotFound, NotFound, msg, cause)
  }

  function NewUnauthorized(msg: string, cause: Option<Error>): Fault {
    New(StatusUnauthorized, Unauthorized, msg, cause)
  }

  /**
   * The fault NewHTTPResponse encodes: the error itself when it is a Fault
   * value (a plain type assertion, so neither a *Fault nor a wrapped Fault
   * qualifies), otherwise a 500 INTERNAL_SERVER_ERROR fault carrying the
   * error's text as message and the error as cause.
   */
  function ResponseFault(err: Error): (f: Fault)
    ensures err.FaultVal? ==> f == err.fault
    ensures !err.FaultVal? ==>
      f.httpCode == StatusInternalServerError && f.tag == InternalServerError
      && f.message == ErrorText(err) && f.cause == Some(err)
  {
    match err
    case FaultVal(v) => v
    case _ => New(StatusInternalServerError, InternalServerError, ErrorText(err), Some(err))
  }

  /** The status NewHTTPResponse writes. */
  function ResponseStatus(err: Error): (code: int)
    ensures code == ResponseFault(err).StatusCode()
  {
    ResponseFault(err).StatusCode()
  }

  /**
   * Each constructor pairs its status with its tag, and keeps message and
   * cause; the tag's name is the string tag.go gives it.
   */
  lemma ConstructorTable(msg: string, cause: Option<Error>)
    ensures var f := NewConflict(msg, cause);
      ResponseStatus(FaultVal(f)) == 409 && f.tag.Name() == "CONFLICT" && f.message == msg && f.cause == cause
    ensures var f := NewUnprocessableEntity(msg, cause);
      ResponseStatus(FaultVal(f)) == 422 && f.tag.Name() == "UNPROCESSABLE_ENTITY" && f.message == msg && f.cause == cause
    ensures var f := NewBadRequest(msg, cause);
      ResponseStatus(FaultVal(f)) == 400 && f.tag.Name() == "BAD_REQUEST" && f.message == msg && f.cause == cause
    ensures var f := NewNotFound(msg, cause);
      ResponseStatus(FaultVal(f)) == 404 && f.tag.Name() == "RESOURCE_NOT_FOUND" && f.message == msg && f.cause == cause
    ensures var f := NewUnauthorized(msg, cause);
      ResponseStatus(FaultVal(f)) == 401 && f.tag.Name() == "UNAUTHORIZED" && f.message == msg && f.cause == cause
  {
  }

  /**
   * The two generations do not see each other's faults: a *Fault built by
   * instance.go gets a 500 from NewHTTPResponse, and a Fault value built
   * here is UNTAGGED for GetTag and gets a 500 from NewHTTPError.
   */
  lemma GenerationsDisagree(f: Fault)
    ensures ResponseStatus(FaultPtr(f)) == StatusInternalServerError
    ensures TagOf(Some(FaultVal(f))) == Untagged
    ensures HttpErrorStatus(FaultVal(f)) == StatusInternalServerError
  {
  }
}
