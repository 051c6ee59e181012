/**
 * The OTP-based user service (internal/domain/user/service.go): register,
 * request a code by e-mail, exchange a code for an access token, and read
 * the signed-in user through the cache.
 *
 * The users repository reports a missing id as "no row and no error"
 * (internal/domain/user/repository.go:26-40), and a driver failure as an
 * untagged fault. Its GetByEmail is not part of this model; a missing
 * e-mail is taken to come back as a NotFound-tagged fault, the case Login
 * tests for.
 */
module DomainUserService {
  import opened Wrappers
  import opened Fault
  import opened DbUtil
  import opened Token
  import opened Store
  import opened Cache
  import opened CodeEntity
  import opened CodeRepository
  import opened CodeService
  import opened DomainUser

  const Minute: int := 60_000_000_000
  /** How long a user stays in the cache. */
  const CacheTtl: int := 30 * Minute

  datatype AuthResponse = AuthResponse(userID: string, accessToken: Claims)
  datatype UserResponse = UserResponse(id: string, name: string, email: string, created: int, updated: int)

  function HasId(id: string): UserModel -> bool {
    (u: UserModel) => u.id == id
  }

  function HasEmail(email: string): UserModel -> bool {
    (u: UserModel) => u.email == email
  }

  function UserKey(id: string): string {
    "user:" + id
  }

  function Response(u: UserModel): (r: UserResponse)
    ensures r.id == u.id && r.name == u.name && r.email == u.email
    ensures r.created == u.created && r.updated == u.updated
  {
    UserResponse(u.id, u.name, u.email, u.created, u.updated)
  }

  /** What GetByID hands back for a driver failure. */
  function RepoError(e: Error): Error {
    NewDefault("failed to get user by id", Some(e))
  }

  /** Verify's answer once the user lookup has not failed, given what the code service answered. */
  function VerifyAnswer(o: Outcome, userID: string, secret: string, duration: int, now: int)
    : (r: Result<AuthResponse, Error>)
    ensures o.err.Some? ==> r == Failure(o.err.value)
    ensures o.err.None? && !o.valid ==> r == Failure(NewConflict("incorrect otp code"))
    ensures r.Success? <==> o.err.None? && o.valid && SecretOk(secret)
    ensures r.Success? ==> r.value.userID == userID && r.value.accessToken == Claims(userID, now + duration)
  {
    if o.err.Some? then Failure(o.err.value)
    else if !o.valid then Failure(NewConflict("incorrect otp code"))
    else match Gen(secret, userID, duration, now)
      case Failure(_) => Failure(NewBadRequest("failed to generate access token"))
      case Success(c) => Success(AuthResponse(userID, c))
  }

  /**
   * Verify. A failed user lookup is BadRequest and the code service is not
   * called. A missing user is not reported by the repository, so the code
   * check runs for it as for any id.
   */
  method Verify(users: Table<UserModel>, codes: CodeTable, userID: string, input: string,
                secret: string, accessTokenDuration: int, now: int,
                userLookupErr: Option<Error>, codeLookupErr: Option<Error>, codeUpdateErr: Option<Error>)
    returns (r: Result<AuthResponse, Error>)
    requires codes.Valid()
    modifies codes
    ensures codes.Valid()
    ensures userLookupErr.Some? ==>
      r == Failure(NewBadRequest("failed to retrieve user")) && codes.rows == old(codes.rows)
    ensures userLookupErr.None? ==>
      var o := VerifyOutcome(old(codes.rows), userID, input, now, codeLookupErr, codeUpdateErr);
      codes.rows == o.rows && r == VerifyAnswer(o, userID, secret, accessTokenDuration, now)
  {
    var found := users.Read(HasId(userID), userLookupErr);
    if found.Failed? {
      var t := GetTag(Some(RepoError(found.err)));
      var e := if t == NotFound then NewNotFound("user not found") else NewBadRequest("failed to retrieve user");
      return Failure(e);
    }
    var valid, err := VerifyCode(codes, userID, input, now, codeLookupErr, codeUpdateErr);
    if err.Some? {
      return Failure(err.value);
    }
    if !valid {
      return Failure(NewConflict("incorrect otp code"));
    }
    var token := Gen(secret, userID, accessTokenDuration, now);
    if token.Failure? {
      return Failure(NewBadRequest("failed to generate access token"));
    }
    return Success(AuthResponse(userID, token.value));
  }

  /**
   * Verify as evidently intended: an id with no row is NotFound and no
   * code is looked at; otherwise the same as Verify.
   */
  method VerifyExisting(users: Table<UserModel>, codes: CodeTable, userID: string, input: string,
                        secret: string, accessTokenDuration: int, now: int,
                        userLookupErr: Option<Error>, codeLookupErr: Option<Error>, codeUpdateErr: Option<Error>)
    returns (r: Result<AuthResponse, Error>)
    requires codes.Valid()
    modifies codes
    ensures codes.Valid()
    ensures userLookupErr.Some? ==>
      r == Failure(NewBadRequest("failed to retrieve user")) && codes.rows == old(codes.rows)
    ensures userLookupErr.None? && (forall u :: u in users.rows ==> u.id != userID) ==>
      r == Failure(NewNotFound("user not found")) && codes.rows == old(codes.rows)
    ensures userLookupErr.None? && (exists u :: u in users.rows && u.id == userID) ==>
      var o := VerifyOutcome(old(codes.rows), userID, input, now, codeLookupErr, codeUpdateErr);
      codes.rows == o.rows && r == VerifyAnswer(o, userID, secret, accessTokenDuration, now)
  {
    var found := users.Read(HasId(userID), userLookupErr);
    if found.Absent? {
      return Failure(NewNotFound("user not found"));
    }
    r := Verify(users, codes, userID, input, secret, accessTokenDuration, now,
                userLookupErr, codeLookupErr, codeUpdateErr);
  }

  /** Login: find the user by e-mail and issue a new code for that user's id. */
  method Login(users: Table<UserModel>, codes: CodeTable, email: string,
               newCodeID: string, digits: string, now: int,
               lookupErr: Option<Error>, inactivateErr: Option<Error>, insertErr: Option<Error>)
    returns (err: Option<Error>)
    requires codes.Valid() && |digits| == CodeSize
    requires insertErr.None? ==> FreshId(codes.rows, newCodeID)
    modifies codes
    ensures codes.Valid()
    ensures lookupErr.Some? ==>
      err == Some(if TagOf(lookupErr) == NotFound then NewNotFound("user not found")
                  else NewBadRequest("failed to retrieve user"))
      && codes.rows == old(codes.rows)
    ensures lookupErr.None? && Find(users.rows, HasEmail(email)).None? ==>
      err == Some(NewNotFound("user not found")) && codes.rows == old(codes.rows)
    ensures lookupErr.None? && Find(users.rows, HasEmail(email)).Some? ==>
      var id := Find(users.rows, HasEmail(email)).value.id;
      if inactivateErr.Some? then
        err == Some(NewBadRequest("failed to generate otp code")) && codes.rows == old(codes.rows)
      else if insertErr.Some? then
        err == Some(NewBadRequest("failed to generate otp code"))
        && codes.rows == InactivatedRows(old(codes.rows), id)
      else
        err.None? && codes.rows == InactivatedRows(old(codes.rows), id) + [NewCodeRow(newCodeID, id, digits, now)]
        && ActiveOf(codes.rows, id) == {NewCodeRow(newCodeID, id, digits, now)}
  {
    var found := users.Read(HasEmail(email), lookupErr);
    var repoErr: Option<Error> := match found
      case Found(_) => None
      case Absent => Some(FaultPtr(Fault(StatusBadRequest, NotFound, "user not found", None)))
      case Failed(e) => Some(e);
    if repoErr.Some? {
      var t := GetTag(repoErr);
      if t == NotFound {
        return Some(NewNotFound("user not found"));
      }
      return Some(NewBadRequest("failed to retrieve user"));
    }
    var record := found.row;
    var e := CreateCode(codes, record.id, newCodeID, digits, now, inactivateErr, insertErr);
    if e.Some? {
      return Some(NewBadRequest("failed to generate otp code"));
    }
    return None;
  }

  /**
   * GetSignedUser. Without claims the call is Unauthorized. A cache hit
   * answers from the cache; a miss or a cache failure falls through to the
   * users table and the answer is then cached for 30 minutes, a failure to
   * cache being ignored. A missing id is NotFound "user not found"; the
   * source as written panics there instead (SignedLookupAsWritten).
   */
  method GetSignedUser(users: Table<UserModel>, cache: Cache<UserResponse>, claims: Option<Claims>,
                       cacheErr: Option<Error>, lookupErr: Option<Error>, cacheSetErr: Option<Error>)
    returns (r: Result<UserResponse, Error>)
    modifies cache
    ensures claims.None? ==>
      r == Failure(NewUnauthorized("access token no provided")) && cache.entries == old(cache.entries)
    ensures claims.Some? && cacheErr.None? && UserKey(claims.value.userID) in old(cache.entries) ==>
      r == Success(old(cache.entries)[UserKey(claims.value.userID)].value)
      && cache.entries == old(cache.entries)
    ensures claims.Some? && (cacheErr.Some? || UserKey(claims.value.userID) !in old(cache.entries)) ==>
      var key := UserKey(claims.value.userID);
      if lookupErr.Some? then
        r == Failure(NewBadRequest("failed to retrieve user")) && cache.entries == old(cache.entries)
      else if Find(users.rows, HasId(claims.value.userID)).None? then
        r == Failure(NewNotFound("user not found")) && cache.entries == old(cache.entries)
      else
        var u := Response(Find(users.rows, HasId(claims.value.userID)).value);
        r == Success(u)
        && cache.entries == (if cacheSetErr.None? then old(cache.entries)[key := Entry(u, CacheTtl)]
                             else old(cache.entries))
  {
    if claims.None? {
      return Failure(NewUnauthorized("access token no provided"));
    }
    var c := claims.value;
    var cached := cache.GetStruct(UserKey(c.userID), cacheErr);
    if cached.Some? {
      return Success(cached.value);
    }
    var found := users.Read(HasId(c.userID), lookupErr);
    if found.Failed? {
      var t := GetTag(Some(RepoError(found.err)));
      var e := if t == NotFound then NewNotFound("user not found") else NewBadRequest("failed to retrieve user");
      return Failure(e);
    }
    if found.Absent? {
      return Failure(NewNotFound("user not found"));
    }
    var user := Response(found.row);
    var _ := cache.SetStruct(UserKey(c.userID), user, CacheTtl, cacheSetErr);
    return Success(user);
  }

  /** How GetSignedUser's lookup step can end: with an answer, or with a nil dereference. */
  datatype Step = Answered(answer: Result<UserResponse, Error>) | NilDereference

  /**
   * GetSignedUser's lookup step as written: a repository error picks
   * NotFound or BadRequest by its tag, and with no error the record is read,
   * even when the repository handed back nil for a missing id.
   */
  function SignedLookupAsWritten(found: Lookup<UserModel>): (s: Step)
    ensures found.Found? ==> s == Answered(Success(Response(found.row)))
    ensures s.NilDereference? <==> found.Absent?
  {
    match found
    case Failed(e) =>
      Answered(Failure(if TagOf(Some(RepoError(e))) == NotFound then NewNotFound("user not found")
                       else NewBadRequest("failed to retrieve user")))
    case Absent => NilDereference
    case Found(u) => Answered(Success(Response(u)))
  }

  /**
   * Register: a validation fault is returned as is; a unique violation on
   * insert becomes dbutil's Conflict, any other insert failure BadRequest.
   */
  method Register(users: Table<UserModel>, name: string, email: string, newID: string, now: int,
                  isEmail: string -> bool, insertErr: Option<Error>)
    returns (err: Option<Error>)
    requires insertErr.Some? && IsUniqueViolation(insertErr.value) ==>
      FindField(AsPq(insertErr.value).value.detail).Some?
    modifies users
    ensures NewEntity(newID, name, email, now, isEmail).Failure? ==>
      err == Some(ValidationFault) && users.rows == old(users.rows)
    ensures NewEntity(newID, name, email, now, isEmail).Success? && insertErr.Some? ==>
      users.rows == old(users.rows)
      && err == Some(if IsUniqueViolation(insertErr.value)
                     then VerifyDuplicatedConstraintKey(insertErr.value).value
                     else NewBadRequest("failed to insert user"))
    ensures NewEntity(newID, name, email, now, isEmail).Success? && insertErr.None? ==>
      err.None? && users.rows == old(users.rows) + [UserModel(newID, name, email, now, now)]
  {
    var entity := NewEntity(newID, name, email, now, isEmail);
    if entity.Failure? {
      return Some(entity.error);
    }
    var e := users.Insert(entity.value.Model(), insertErr);
    if e.Some? {
      var dup := VerifyDuplicatedConstraintKey(e.value);
      if dup.Some? {
        return dup;
      }
      return Some(NewBadRequest("failed to insert user"));
    }
    return None;
  }

  // ---------------------------------------------------------------------
  // Properties

  /** A valid verification answers with the very id it was asked about; a false one is a Conflict. */
  lemma VerifyAnswerShape(o: Outcome, userID: string, secret: string, duration: int, now: int)
    requires o.err.None?
    ensures !o.valid ==> TagOf(Some(VerifyAnswer(o, userID, secret, duration, now).error)) == Conflict
    ensures o.valid && SecretOk(secret) ==>
      VerifyAnswer(o, userID, secret, duration, now) == Success(AuthResponse(userID, Claims(userID, now + duration)))
    ensures o.valid && !SecretOk(secret) ==>
      VerifyAnswer(o, userID, secret, duration, now) == Failure(NewBadRequest("failed to generate access token"))
  {
  }

  /**
   * Verify as written issues a token for an id the users table does not
   * hold: nothing in its answer depends on the users table, and a code
   * left for that id (say, by a user since deleted) is accepted.
   */
  lemma UnknownUserIsVerified(secret: string, duration: int)
    requires SecretOk(secret)
    ensures var rows := [NewCodeRow("c1", "gone", "123456", 0)];
      VerifyAnswer(VerifyOutcome(rows, "gone", "123456", 0, None, None), "gone", secret, duration, 0)
        == Success(AuthResponse("gone", Claims("gone", duration)))
  {
    var row := NewCodeRow("c1", "gone", "123456", 0);
    FreshCodeAccepts("c1", "gone", "123456", 0, 0);
    assert ActiveRow([row], "gone") == Some(row);
  }

  /**
   * GetSignedUser as written never answers NotFound: a missing id reaches
   * the nil dereference, and a driver failure is wrapped untagged and so
   * always becomes BadRequest.
   */
  lemma MissingSignedUserPanics(users: Table<UserModel>, id: string, e: Error)
    requires forall u :: u in users.rows ==> u.id != id
    ensures SignedLookupAsWritten(users.Read(HasId(id), None)) == NilDereference
    ensures SignedLookupAsWritten(users.Read(HasId(id), Some(e)))
      == Answered(Failure(NewBadRequest("failed to retrieve user")))
  {
    assert forall u :: u in users.rows ==> !HasId(id)(u);
    assert TagOf(Some(RepoError(e))) == Untagged;
  }

  /** A code error from the code service reaches the caller unchanged. */
  lemma CodeErrorsPassThrough(rows: seq<CodeModel>, userID: string, input: string, now: int,
                              lookupErr: Option<Error>, updateErr: Option<Error>, secret: string, duration: int)
    requires VerifyOutcome(rows, userID, input, now, lookupErr, updateErr).err.Some?
    ensures VerifyAnswer(VerifyOutcome(rows, userID, input, now, lookupErr, updateErr), userID, secret, duration, now)
      == Failure(VerifyOutcome(rows, userID, input, now, lookupErr, updateErr).err.value)
  {
  }
}
