/**
 * The user service of the password flow (internal/modules/user/service.go).
 * Its repository (internal/modules/user/repository.go) reports a missing
 * row as "no row and no error" and wraps driver failures with fmt.Errorf.
 * The faults come from an external fault package whose constructors behave
 * like those of pkg/fault/instance.go. The helper that pulls the column
 * name out of a Postgres detail string (dbutil.ExtractFieldFromDetail) is
 * not part of this model and is a parameter, `extractField`.
 */
module ModuleUserService {
  import opened Wrappers
  import opened Fault
  import opened DbUtil
  import opened Store
  import opened ModuleUser

  function HasEmail(email: string): UserModel -> bool {
    (u: UserModel) => u.email == email
  }

  function HasId(id: string): UserModel -> bool {
    (u: UserModel) => u.id == id
  }

  /** The repository's wrapper around a failed INSERT. */
  function InsertError(e: Error): Error {
    Wrapped("failed to insert user", e)
  }

  /** What CreateUser answers for a failed insert: a unique violation names the column. */
  function InsertFault(e: Error, extractField: string -> string): (r: Error)
    ensures IsUniqueViolation(InsertError(e)) ==>
      r == NewConflict(extractField(AsPq(e).value.detail) + " already taken")
    ensures !IsUniqueViolation(InsertError(e)) ==> r == NewBadRequest("failed to insert user")
  {
    var repoErr := InsertError(e);
    match AsPq(repoErr)
    case Some(pq) =>
      if pq.code == UniqueViolation then NewConflict(extractField(pq.detail) + " already taken")
      else NewBadRequest("failed to insert user")
    case None => NewBadRequest("failed to insert user")
  }

  /** What CreateUser leaves behind: its error and the users table. */
  datatype Outcome = Outcome(err: Option<Error>, rows: seq<UserModel>)

  /**
   * CreateUser's effect on a users table: refuse a taken e-mail, build the
   * entity, insert its row.
   */
  function CreateUserOutcome(rows: seq<UserModel>, name: string, username: string, email: string,
                             hash: Result<string, Error>, newID: string, now: int,
                             lookupErr: Option<Error>, insertErr: Option<Error>, extractField: string -> string)
    : (o: Outcome)
    ensures lookupErr.Some? ==> o == Outcome(Some(NewBadRequest("failed to get user by email")), rows)
    ensures lookupErr.None? && Find(rows, HasEmail(email)).Some? ==>
      o == Outcome(Some(NewConflict("e-mail already taken")), rows)
    ensures lookupErr.None? && Find(rows, HasEmail(email)).None?
            && ModuleUser.New(newID, name, username, email, hash, now).Failure? ==>
      o == Outcome(Some(NewUnprocessableEntity("failed to create user entity")), rows)
    ensures lookupErr.None? && Find(rows, HasEmail(email)).None?
            && ModuleUser.New(newID, name, username, email, hash, now).Success? && insertErr.Some? ==>
      o == Outcome(Some(InsertFault(insertErr.value, extractField)), rows)
    ensures lookupErr.None? && Find(rows, HasEmail(email)).None?
            && ModuleUser.New(newID, name, username, email, hash, now).Success? && insertErr.None? ==>
      o == Outcome(None, rows + [ModuleUser.New(newID, name, username, email, hash, now).value.ToModel()])
    ensures o.err.Some? ==> o.rows == rows
    ensures o.err.None? ==>
      (forall x :: x in rows ==> x.email != email)
      && |o.rows| == |rows| + 1 && o.rows[..|rows|] == rows && o.rows[|rows|].email == email
      && !o.rows[|rows|].enabled && !o.rows[|rows|].locked && hash.Success? && o.rows[|rows|].password == hash.value
  {
    if lookupErr.Some? then Outcome(Some(NewBadRequest("failed to get user by email")), rows)
    else if Find(rows, HasEmail(email)).Some? then Outcome(Some(NewConflict("e-mail already taken")), rows)
    else match ModuleUser.New(newID, name, username, email, hash, now)
      case Failure(_) => Outcome(Some(NewUnprocessableEntity("failed to create user entity")), rows)
      case Success(u) =>
        if insertErr.Some? then Outcome(Some(InsertFault(insertErr.value, extractField)), rows)
        else Outcome(None, rows + [u.ToModel()])
  }

  /**
   * CreateUser. The e-mail check and the insert are separate statements; a
   * row with the same e-mail inserted in between is caught only by the
   * unique key, as a Conflict from InsertFault.
   */
  method CreateUser(users: Table<UserModel>, name: string, username: string, email: string,
                    hash: Result<string, Error>, newID: string, now: int,
                    lookupErr: Option<Error>, insertErr: Option<Error>, extractField: string -> string)
    returns (err: Option<Error>)
    modifies users
    ensures var o := CreateUserOutcome(old(users.rows), name, username, email, hash, newID, now,
                                       lookupErr, insertErr, extractField);
      err == o.err && users.rows == o.rows
  {
    var found := users.Read(HasEmail(email), lookupErr);
    if found.Failed? {
      return Some(NewBadRequest("failed to get user by email"));
    }
    if found.Found? {
      return Some(NewConflict("e-mail already taken"));
    }
    var newUser := ModuleUser.New(newID, name, username, email, hash, now);
    if newUser.Failure? {
      return Some(NewUnprocessableEntity("failed to create user entity"));
    }
    var model := newUser.value.ToModel();
    var e := users.Insert(model, insertErr);
    if e.Some? {
      return Some(InsertFault(e.value, extractField));
    }
    return None;
  }

  /** The service's reading of a repository lookup: failure is BadRequest, absence NotFound. */
  function Answer(found: Lookup<UserModel>): (r: Result<UserModel, Error>)
    ensures found.Failed? ==> r == Failure(NewBadRequest("failed to retrieve user"))
    ensures found.Absent? ==> r == Failure(NewNotFound("user not found"))
    ensures found.Found? ==> r == Success(found.row)
  {
    match found
    case Failed(_) => Failure(NewBadRequest("failed to retrieve user"))
    case Absent => Failure(NewNotFound("user not found"))
    case Found(u) => Success(u)
  }

  method GetUserByEmail(users: Table<UserModel>, email: string, lookupErr: Option<Error>)
    returns (r: Result<UserModel, Error>)
    ensures lookupErr.Some? ==> r == Failure(NewBadRequest("failed to retrieve user"))
    ensures lookupErr.None? ==>
      (r.Success? <==> exists x :: x in users.rows && x.email == email)
    ensures lookupErr.None? && r.Failure? ==> r == Failure(NewNotFound("user not found"))
    ensures r.Success? ==> r.value in users.rows && r.value.email == email
  {
    var found := users.Read(HasEmail(email), lookupErr);
    return Answer(found);
  }

  method GetUserByID(users: Table<UserModel>, userID: string, lookupErr: Option<Error>)
    returns (r: Result<UserModel, Error>)
    ensures lookupErr.Some? ==> r == Failure(NewBadRequest("failed to retrieve user"))
    ensures lookupErr.None? ==>
      (r.Success? <==> exists x :: x in users.rows && x.id == userID)
    ensures lookupErr.None? && r.Failure? ==> r == Failure(NewNotFound("user not found"))
    ensures r.Success? ==> r.value in users.rows && r.value.id == userID
  {
    var found := users.Read(HasId(userID), lookupErr);
    return Answer(found);
  }

  // ---------------------------------------------------------------------
  // Properties

  /** A Postgres unique violation, however deeply wrapped by the driver, is a Conflict naming the column. */
  lemma DuplicateInsertIsConflict(detail: string, msg: string, extractField: string -> string)
    ensures InsertFault(Pq(UniqueViolation, msg, detail), extractField)
      == NewConflict(extractField(detail) + " already taken")
    ensures TagOf(Some(InsertFault(Pq(UniqueViolation, msg, detail), extractField))) == Conflict
  {
    var pq := Pq(UniqueViolation, msg, detail);
    assert AsPq(pq) == Some(pq);
    assert AsPq(InsertError(pq)) == Some(pq);
  }

  /** Any other driver failure is a BadRequest. */
  lemma OtherInsertErrorIsBadRequest(e: Error, extractField: string -> string)
    requires AsPq(e).None? || AsPq(e).value.code != UniqueViolation
    ensures InsertFault(e, extractField) == NewBadRequest("failed to insert user")
  {
  }

  /** No two rows share an e-mail. */
  predicate UniqueEmails(rows: seq<UserModel>) {
    forall i, j :: 0 <= i < j < |rows| ==> rows[i].email != rows[j].email
  }

  /** CreateUser never adds a second row for an e-mail already present. */
  lemma CreateUserKeepsEmailsUnique(rows: seq<UserModel>, name: string, username: string, email: string,
                                    hash: Result<string, Error>, newID: string, now: int,
                                    lookupErr: Option<Error>, insertErr: Option<Error>, extractField: string -> string)
    requires UniqueEmails(rows)
    ensures UniqueEmails(CreateUserOutcome(rows, name, username, email, hash, newID, now,
                                           lookupErr, insertErr, extractField).rows)
  {
    var o := CreateUserOutcome(rows, name, username, email, hash, newID, now, lookupErr, insertErr, extractField);
    if o.err.None? {
      forall i, j | 0 <= i < j < |o.rows|
        ensures o.rows[i].email != o.rows[j].email
      {
        if j == |rows| {
          assert o.rows[i] == rows[i];
          assert rows[i] in rows;
        } else {
          assert o.rows[i] == rows[i] && o.rows[j] == rows[j];
        }
      }
    }
  }
}
