/**
 * The password-based auth service (internal/modules/auth/service.go).
 *
 * The sessions GetActiveByUserID reads the first active session of the
 * user, with "no row and no error" when there is none. The repositories'
 * Update and DeactivateAll are not part of this model. They are taken to
 * be: write the given row over the row with its id; set active to false on
 * every active session of the user. The user and session entities' Enable and
 * Deactivate are not part of this model either and are taken to set
 * `enabled` and `active` and nothing else. Password matching is the
 * parameter `passwordMatches(plain, hashed)`.
 */
module Auth {
  import opened Wrappers
  import opened Fault
  import opened Token
  import opened Store
  import opened Cache
  import opened ModuleUser
  import opened Session
  import ModuleUserService

  const Minute: int := 60_000_000_000
  const AccessTokenDuration: int := 15 * Minute
  const RefreshTokenDuration: int := 30 * 24 * 60 * Minute

  datatype LoginResponse = LoginResponse(sessionID: string, accessToken: Claims, refreshToken: Claims)

  /** The signed-in user as the API shows it; the row's password and enabled flag are not part of it. */
  datatype UserResponse = UserResponse(
    id: string, name: string, username: string, email: string,
    avatarURL: Option<string>, locked: bool, created: int, updated: int)

  function HasEmail(email: string): UserModel -> bool {
    (u: UserModel) => u.email == email
  }

  function HasId(id: string): UserModel -> bool {
    (u: UserModel) => u.id == id
  }

  /** Replace a row by the given one: the repository's Update(model). */
  function SetUser(m: UserModel): UserModel -> UserModel {
    (u: UserModel) => m
  }

  function SetSession(m: SessionModel): SessionModel -> SessionModel {
    (s: SessionModel) => m
  }

  function SessionHasId(id: string): SessionModel -> bool {
    (s: SessionModel) => s.id == id
  }

  /** The sessions GetActiveByUserID and DeactivateAll select. */
  function ActiveOf(userID: string): SessionModel -> bool {
    (s: SessionModel) => s.userID == userID && s.active
  }

  function Deactivated(): SessionModel -> SessionModel {
    (s: SessionModel) => s.(active := false)
  }

  /** The sessions table after DeactivateAll(userID). */
  function DeactivateAllRows(rows: seq<SessionModel>, userID: string): (r: seq<SessionModel>)
    ensures |r| == |rows|
    ensures forall i :: 0 <= i < |rows| ==> !ActiveOf(userID)(r[i])
    ensures forall i :: 0 <= i < |rows| && rows[i].userID != userID ==> r[i] == rows[i]
  {
    UpdateWhere(rows, ActiveOf(userID), Deactivated())
  }

  function LockedFault(): Error {
    FaultPtr(Fault(StatusUnauthorized, LockedUser, "user is locked", None))
  }

  function DisabledFault(): Error {
    FaultPtr(Fault(StatusUnauthorized, DisabledUser, "user must enable account to login", None))
  }

  function ExpiredLinkFault(): Error {
    FaultPtr(Fault(StatusBadRequest, Expired, "expired activation link", None))
  }

  /** Both tokens, or the first error: the refresh token is signed only after the access token. */
  function BothTokens(access: Result<Claims, Error>, refresh: Result<Claims, Error>)
    : (r: Result<(Claims, Claims), Error>)
    ensures access.Failure? ==> r == Failure(access.error)
    ensures access.Success? && refresh.Failure? ==> r == Failure(refresh.error)
    ensures access.Success? && refresh.Success? ==> r == Success((access.value, refresh.value))
  {
    if access.Failure? then Failure(access.error)
    else if refresh.Failure? then Failure(refresh.error)
    else Success((access.value, refresh.value))
  }

  /**
   * The checks Login runs on a user record before touching any session,
   * in order: password, lock, enablement.
   */
  function Admit(u: UserModel, password: string, passwordMatches: (string, string) -> bool)
    : (r: Option<Error>)
    ensures r.None? <==> passwordMatches(password, u.password) && !u.locked && u.enabled
    ensures !passwordMatches(password, u.password) ==> r == Some(NewUnauthorized("invalid credentials"))
    ensures passwordMatches(password, u.password) && u.locked ==> r == Some(LockedFault())
    ensures passwordMatches(password, u.password) && !u.locked && !u.enabled ==> r == Some(DisabledFault())
  {
    if !passwordMatches(password, u.password) then Some(NewUnauthorized("invalid credentials"))
    else if u.locked then Some(LockedFault())
    else if !u.enabled then Some(DisabledFault())
    else None
  }

  /**
   * Login. The session service looks the user up again (`sessionUserErr`
   * is that lookup's driver verdict) and its error is returned unchanged.
   */
  method Login(users: Table<UserModel>, sessions: Table<SessionModel>,
               email: string, password: string, ip: string, browser: string, os: string,
               secret: string, now: int, passwordMatches: (string, string) -> bool,
               newSessionID: string, expires: int,
               lookupErr: Option<Error>, deactivateErr: Option<Error>,
               sessionUserErr: Option<Error>, entityErr: Option<Error>, insertErr: Option<Error>)
    returns (r: Result<LoginResponse, Error>)
    modifies sessions
    ensures lookupErr.Some? ==>
      r == Failure(NewBadRequest("failed to get user by email")) && sessions.rows == old(sessions.rows)
    ensures lookupErr.None? && Find(users.rows, HasEmail(email)).None? ==>
      r == Failure(NewNotFound("user not found")) && sessions.rows == old(sessions.rows)
    ensures lookupErr.None? && Find(users.rows, HasEmail(email)).Some? ==>
      var u := Find(users.rows, HasEmail(email)).value;
      var deactivated := DeactivateAllRows(old(sessions.rows), u.id);
      var access := Claims(u.id, now + AccessTokenDuration);
      var refresh := Claims(u.id, now + RefreshTokenDuration);
      if Admit(u, password, passwordMatches).Some? then
        r == Failure(Admit(u, password, passwordMatches).value) && sessions.rows == old(sessions.rows)
      else if deactivateErr.Some? then
        r == Failure(NewBadRequest("failed to deactivate user sessions")) && sessions.rows == old(sessions.rows)
      else if !SecretOk(secret) then
        r == Failure(NewUnauthorized("invalid secret key")) && sessions.rows == deactivated
      else if sessionUserErr.Some? then
        r == Failure(NewBadRequest("failed to retrieve user")) && sessions.rows == deactivated
      else if entityErr.Some? then
        r == Failure(FaultVal(FaultValue.NewUnprocessableEntity("failed to create session entity", entityErr)))
        && sessions.rows == deactivated
      else if insertErr.Some? then
        r == Failure(FaultVal(FaultValue.NewBadRequest("failed to insert session entity",
                                                       Some(Session.InsertError(insertErr.value)))))
        && sessions.rows == deactivated
      else
        r == Success(LoginResponse(newSessionID, access, refresh))
        && sessions.rows == deactivated + [NewRow(newSessionID, u.id, ip, browser, os, refresh, expires, now)]
  {
    var found := users.Read(HasEmail(email), lookupErr);
    if found.Failed? {
      return Failure(NewBadRequest("failed to get user by email"));
    }
    if found.Absent? {
      return Failure(NewNotFound("user not found"));
    }
    var userRecord := found.row;
    var userID := userRecord.id;
    if !passwordMatches(password, userRecord.password) {
      return Failure(NewUnauthorized("invalid credentials"));
    }
    if userRecord.locked {
      return Failure(LockedFault());
    }
    if !userRecord.enabled {
      return Failure(DisabledFault());
    }
    var e := sessions.Update(ActiveOf(userID), Deactivated(), deactivateErr);
    if e.Some? {
      return Failure(NewBadRequest("failed to deactivate user sessions"));
    }
    var tokens := BothTokens(Gen(secret, userID, AccessTokenDuration, now),
                             Gen(secret, userID, RefreshTokenDuration, now));
    if tokens.Failure? {
      return Failure(NewUnauthorized(ErrorText(tokens.error)));
    }
    var (accessToken, refreshToken) := tokens.value;
    var sessID, err := CreateSession(users, sessions, userID, ip, browser, os, refreshToken,
                                     newSessionID, expires, now, sessionUserErr, entityErr, insertErr);
    if err.Some? {
      return Failure(err.value);
    }
    return Success(LoginResponse(sessID, accessToken, refreshToken));
  }

  /** Activate: enable a user that is not enabled yet; an enabled user means the link was already used. */
  method Activate(users: Table<UserModel>, userID: string, lookupErr: Option<Error>, updateErr: Option<Error>)
    returns (err: Option<Error>)
    modifies users
    ensures lookupErr.Some? ==>
      err == Some(NewBadRequest("failed to get user by id")) && users.rows == old(users.rows)
    ensures lookupErr.None? && Find(old(users.rows), HasId(userID)).None? ==>
      err == Some(NewNotFound("user not found")) && users.rows == old(users.rows)
    ensures lookupErr.None? && Find(old(users.rows), HasId(userID)).Some? ==>
      var u := Find(old(users.rows), HasId(userID)).value;
      if u.enabled then
        err == Some(ExpiredLinkFault()) && users.rows == old(users.rows)
      else if updateErr.Some? then
        err == Some(NewBadRequest("failed to update user")) && users.rows == old(users.rows)
      else
        err.None? && users.rows == UpdateWhere(old(users.rows), HasId(userID), SetUser(u.(enabled := true)))
  {
    var found := users.Read(HasId(userID), lookupErr);
    if found.Failed? {
      return Some(NewBadRequest("failed to get user by id"));
    }
    if found.Absent? {
      return Some(NewNotFound("user not found"));
    }
    var userRecord := found.row;
    if userRecord.enabled {
      return Some(ExpiredLinkFault());
    }
    var u := userRecord.(enabled := true);
    var e := users.Update(HasId(u.id), SetUser(u), updateErr);
    if e.Some? {
      return Some(NewBadRequest("failed to update user"));
    }
    return None;
  }

  /** The cache key of a user's session. */
  function SessionKey(userID: string): string {
    "sess:" + userID
  }

  /**
   * Logout: deactivate the user's active session and drop its cache entry;
   * a cache failure is ignored. The goroutine that afterwards checks the
   * cache again is not part of this model.
   */
  method Logout(sessions: Table<SessionModel>, cache: Cache<SessionModel>, claims: Option<Claims>,
                lookupErr: Option<Error>, updateErr: Option<Error>, cacheErr: Option<Error>)
    returns (err: Option<Error>)
    modifies sessions, cache
    ensures claims.None? ==>
      err == Some(NewUnauthorized("access token no provided"))
      && sessions.rows == old(sessions.rows) && cache.entries == old(cache.entries)
    ensures claims.Some? && lookupErr.Some? ==>
      err == Some(NewBadRequest("failed to retrieve active session"))
      && sessions.rows == old(sessions.rows) && cache.entries == old(cache.entries)
    ensures claims.Some? && lookupErr.None? && Find(old(sessions.rows), ActiveOf(claims.value.userID)).None? ==>
      err == Some(NewNotFound("active session not found"))
      && sessions.rows == old(sessions.rows) && cache.entries == old(cache.entries)
    ensures claims.Some? && lookupErr.None? && Find(old(sessions.rows), ActiveOf(claims.value.userID)).Some? ==>
      var s := Find(old(sessions.rows), ActiveOf(claims.value.userID)).value;
      if updateErr.Some? then
        err == Some(NewBadRequest("failed to deactivate session"))
        && sessions.rows == old(sessions.rows) && cache.entries == old(cache.entries)
      else
        err.None?
        && sessions.rows == UpdateWhere(old(sessions.rows), SessionHasId(s.id), SetSession(s.(active := false)))
        && cache.entries == (if cacheErr.None? then old(cache.entries) - {SessionKey(claims.value.userID)}
                             else old(cache.entries))
  {
    if claims.None? {
      return Some(NewUnauthorized("access token no provided"));
    }
    var c := claims.value;
    var found := sessions.Read(ActiveOf(c.userID), lookupErr);
    if found.Failed? {
      return Some(NewBadRequest("failed to retrieve active session"));
    }
    if found.Absent? {
      return Some(NewNotFound("active session not found"));
    }
    var sess := found.row.(active := false);
    var e := sessions.Update(SessionHasId(sess.id), SetSession(sess), updateErr);
    if e.Some? {
      return Some(NewBadRequest("failed to deactivate session"));
    }
    var _ := cache.Delete(SessionKey(c.userID), cacheErr);
    return None;
  }

  /** The projection GetSignedUser answers with. */
  function Project(u: UserModel): (r: UserResponse)
    ensures r.id == u.id && r.name == u.name && r.username == u.username && r.email == u.email
    ensures r.avatarURL == u.avatarURL && r.locked == u.locked && r.created == u.created && r.updated == u.updated
  {
    UserResponse(u.id, u.name, u.username, u.email, u.avatarURL, u.locked, u.created, u.updated)
  }

  method GetSignedUser(users: Table<UserModel>, claims: Option<Claims>, lookupErr: Option<Error>)
    returns (r: Result<UserResponse, Error>)
    ensures claims.None? ==> r == Failure(NewUnauthorized("access token no provided"))
    ensures claims.Some? && lookupErr.Some? ==> r == Failure(NewBadRequest("failed to retrieve user"))
    ensures claims.Some? && lookupErr.None? ==>
      (r.Success? <==> exists u :: u in users.rows && u.id == claims.value.userID)
    ensures claims.Some? && lookupErr.None? && r.Failure? ==> r == Failure(NewNotFound("user not found"))
    ensures r.Success? ==> exists u :: u in users.rows && u.id == claims.value.userID && r.value == Project(u)
  {
    if claims.None? {
      return Failure(NewUnauthorized("access token no provided"));
    }
    var c := claims.value;
    var found := users.Read(HasId(c.userID), lookupErr);
    if found.Failed? {
      return Failure(NewBadRequest("failed to retrieve user"));
    }
    if found.Absent? {
      return Failure(NewNotFound("user not found"));
    }
    return Success(Project(found.row));
  }

  /** Register: the user service's answer, unchanged. */
  method Register(users: Table<UserModel>, name: string, username: string, email: string,
                  hash: Result<string, Error>, newID: string, now: int,
                  lookupErr: Option<Error>, insertErr: Option<Error>, extractField: string -> string)
    returns (err: Option<Error>)
    modifies users
    ensures var o := ModuleUserService.CreateUserOutcome(old(users.rows), name, username, email, hash, newID, now,
                                                         lookupErr, insertErr, extractField);
      err == o.err && users.rows == o.rows
  {
    err := ModuleUserService.CreateUser(users, name, username, email, hash, newID, now,
                                        lookupErr, insertErr, extractField);
  }

  // ---------------------------------------------------------------------
  // Properties

  /** A locked user hears LOCKED_USER whatever the enabled flag says. */
  lemma LockedBeforeDisabled(u: UserModel, password: string, passwordMatches: (string, string) -> bool)
    requires passwordMatches(password, u.password) && u.locked
    ensures Admit(u, password, passwordMatches) == Some(LockedFault())
    ensures TagOf(Admit(u, password, passwordMatches)) == LockedUser
    ensures HttpErrorStatus(Admit(u, password, passwordMatches).value) == StatusUnauthorized
  {
  }

  /** After a successful login the user has exactly one active session: the new one. */
  lemma LoginLeavesOneActiveSession(rows: seq<SessionModel>, row: SessionModel)
    requires row.active
    ensures forall s :: s in DeactivateAllRows(rows, row.userID) + [row] && s.userID == row.userID && s.active
                        ==> s == row
  {
  }

  /** Deactivating all sessions of one user leaves every other user's sessions as they were. */
  lemma DeactivateAllIsPerUser(rows: seq<SessionModel>, userID: string, s: SessionModel)
    requires s in rows && s.userID != userID
    ensures s in DeactivateAllRows(rows, userID)
  {
    UpdateWhereKeepsOthers(rows, ActiveOf(userID), Deactivated(), s);
  }

  /** The projection does not depend on the password hash nor on the enabled flag. */
  lemma ProjectionHidesPassword(u: UserModel, password: string, enabled: bool)
    ensures Project(u) == Project(u.(password := password, enabled := enabled))
  {
  }
}
