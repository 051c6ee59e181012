/**
 * The user entity of the OTP flow (internal/domain/user/entity.go).
 * The e-mail syntax rule of the validation library is a parameter
 * (`isEmail`); the list of per-field messages attached to the fault is not
 * modelled, only the fault itself. The library's Length rule measures the
 * name with Go's len, in UTF-8 bytes (Utf8Length).
 */
module DomainUser {
  import opened Wrappers
  import opened Fault
  import opened Utf8

  const MinNameLength: nat := 3
  const MaxNameLength: nat := 100

  /** A row of the users table (model.User). */
  datatype UserModel = UserModel(id: string, name: string, email: string, created: int, updated: int)

  datatype User = User(id: string, name: string, email: string, created: int, updated: int) {
    /** Model: every field copied. */
    function Model(): (m: UserModel)
      ensures m.id == id && m.name == name && m.email == email && m.created == created && m.updated == updated
    {
      UserModel(id, name, email, created, updated)
    }
  }

  /** The name rule: required, and between 3 and 100 bytes long. */
  predicate NameOk(name: string) {
    name != "" && MinNameLength <= Utf8Length(name) <= MaxNameLength
  }

  /** The e-mail rule: required, and well-formed by the library's check. */
  predicate EmailOk(email: string, isEmail: string -> bool) {
    email != "" && isEmail(email)
  }

  /** The fault validate returns for any rule failure. */
  const ValidationFault: Error :=
    FaultPtr(Fault(StatusUnprocessableEntity, ValidationError, "failed to validate product", None))

  /** validate: no error exactly when both rules hold. */
  function Validate(u: User, isEmail: string -> bool): (r: Option<Error>)
    ensures r.None? <==> NameOk(u.name) && EmailOk(u.email, isEmail)
    ensures r.Some? ==> r.value == ValidationFault
  {
    if NameOk(u.name) && EmailOk(u.email, isEmail) then None else Some(ValidationFault)
  }

  /**
   * NewEntity: a user stamped with `now` that passes validation, or the
   * validation fault and no user. `newID` stands for uid.New("user").
   */
  function NewEntity(newID: string, name: string, email: string, now: int, isEmail: string -> bool)
    : (r: Result<User, Error>)
    ensures r.Success? <==> NameOk(name) && EmailOk(email, isEmail)
    ensures r.Success? ==> r.value == User(newID, name, email, now, now)
    ensures r.Failure? ==>
      TagOf(Some(r.error)) == ValidationError && HttpErrorStatus(r.error) == StatusUnprocessableEntity
  {
    var u := User(newID, name, email, now, now);
    match Validate(u, isEmail)
    case Some(e) => Failure(e)
    case None => Success(u)
  }

  /** Names of 2 or 101 characters, an empty name and an empty e-mail are all refused. */
  lemma NameBounds(newID: string, email: string, now: int, isEmail: string -> bool)
    ensures NewEntity(newID, "ab", email, now, isEmail).Failure?
    ensures NewEntity(newID, "", email, now, isEmail).Failure?
    ensures NewEntity(newID, "abc", "", now, isEmail).Failure?
    ensures forall n :: |n| > MaxNameLength ==> NewEntity(newID, n, email, now, isEmail).Failure?
  {
    assert Utf8Length("ab") == 2;
  }

  /**
   * The length rule counts bytes, not characters: with a well-formed
   * e-mail, "éé" (two characters, four bytes) is accepted, and a run of "é"
   * is accepted up to 50 characters (100 bytes) and refused from 51 on.
   */
  lemma NameLengthInBytes(newID: string, email: string, now: int, isEmail: string -> bool, n: string)
    requires EmailOk(email, isEmail)
    requires forall i :: 0 <= i < |n| ==> n[i] == 'é'
    ensures NewEntity(newID, "éé", email, now, isEmail).Success?
    ensures NewEntity(newID, n, email, now, isEmail).Success? <==> 2 <= |n| <= 50
  {
    assert Utf8Length("éé") == 4;
    TwoByteRun(n, 'é');
  }
}
