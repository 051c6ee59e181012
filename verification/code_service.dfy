/**
 * The one-time code service (internal/domain/code/service.go): creating a
 * code for a user and verifying a submitted code against the stored one.
 * Driver failures of each repository statement are parameters, as in
 * CodeRepository.
 */
module CodeService {
  import opened Wrappers
  import opened Fault
  import opened CodeEntity
  import opened CodeRepository

  /** What VerifyCode decides for a loaded code: the answer and the row it writes back. */
  datatype Decision = Decision(valid: bool, err: Option<Error>, written: CodeModel)

  /**
   * The ordered checks of VerifyCode on the code as loaded: the attempt is
   * counted first, then expiry, then the attempt limit, then the comparison.
   */
  function Decide(loaded: CodeModel, input: string, now: int): Decision {
    var counted := loaded.(attempts := loaded.attempts + 1, updatedAt := now);
    if now > counted.expiresAt then
      Decision(false, Some(NewForbidden("code has expired")), counted)
    else if counted.attempts >= MaxAttempts then
      Decision(false, Some(NewForbidden("max code attempts reached for this code")), counted)
    else if counted.code != input then
      Decision(false, None, counted)
    else
      Decision(true, None, counted.(usedAt := Some(now), active := false, updatedAt := now))
  }

  /** What a VerifyCode call answers and the table it leaves behind. */
  datatype Outcome = Outcome(valid: bool, err: Option<Error>, rows: seq<CodeModel>)

  /**
   * VerifyCode as a function of the table: a failed or empty lookup answers
   * without writing; otherwise exactly one UPDATE writes the decided row,
   * and if that UPDATE fails the answer is BadRequest whatever was decided.
   */
  function VerifyOutcome(rows: seq<CodeModel>, userID: string, input: string, now: int,
                         lookupErr: Option<Error>, updateErr: Option<Error>): Outcome
  {
    if lookupErr.Some? then Outcome(false, Some(NewBadRequest("failed to verify code")), rows)
    else match ActiveRow(rows, userID)
      case None => Outcome(false, Some(NewNotFound("no code found for user")), rows)
      case Some(loaded) =>
        var d := Decide(loaded, input, now);
        if updateErr.Some? then Outcome(false, Some(NewBadRequest("failed to verify code")), rows)
        else Outcome(d.valid, d.err, UpdatedRows(rows, d.written))
  }

  /**
   * VerifyCode. `lookupErr`, `updateErr`: the driver's verdict on the
   * SELECT and on the one UPDATE a call performs.
   */
  method VerifyCode(codes: CodeTable, userID: string, input: string, now: int,
                    lookupErr: Option<Error>, updateErr: Option<Error>)
    returns (valid: bool, err: Option<Error>)
    requires codes.Valid()
    modifies codes
    ensures codes.Valid()
    ensures var o := VerifyOutcome(old(codes.rows), userID, input, now, lookupErr, updateErr);
      valid == o.valid && err == o.err && codes.rows == o.rows
  {
    var found := codes.GetByUserID(userID, lookupErr);
    if found.Failure? {
      var t := GetTag(Some(found.error));
      if t == NotFound {
        return false, Some(NewNotFound("no code found for user"));
      }
      return false, Some(NewBadRequest("failed to verify code"));
    }
    ghost var loaded := found.value;
    ghost var d := Decide(loaded, input, now);
    UpdateKeepsValid(codes.rows, d.written);

    var entity := new Code.FromModel(found.value);
    entity.IncrementAttempt(now);
    ghost var counted := loaded.(attempts := loaded.attempts + 1, updatedAt := now);
    assert entity.Model() == counted;

    if entity.IsExpired(now) {
      var e := codes.Update(entity.Model(), updateErr);
      if e.Some? {
        return false, Some(NewBadRequest("failed to verify code"));
      }
      return false, Some(NewForbidden("code has expired"));
    }

    if entity.IsMaxAttempts() {
      var e := codes.Update(entity.Model(), updateErr);
      if e.Some? {
        return false, Some(NewBadRequest("failed to verify code"));
      }
      return false, Some(NewForbidden("max code attempts reached for this code"));
    }

    if entity.code != input {
      var e := codes.Update(entity.Model(), updateErr);
      if e.Some? {
        return false, Some(NewBadRequest("failed to verify code"));
      }
      return false, None;
    }

    entity.MarkAsUsed(now);
    var e := codes.Update(entity.Model(), updateErr);
    if e.Some? {
      return false, Some(NewBadRequest("failed to verify code"));
    }
    return true, None;
  }

  /**
   * CreateCode. `newID` and `digits` stand for uid.New("code") and
   * nanorand.Gen(6); `inactivateErr` and `insertErr` are the driver's
   * verdicts on the two statements.
   */
  method CreateCode(codes: CodeTable, userID: string, newID: string, digits: string, now: int,
                    inactivateErr: Option<Error>, insertErr: Option<Error>)
    returns (err: Option<Error>)
    requires codes.Valid() && |digits| == CodeSize
    requires insertErr.None? ==> FreshId(codes.rows, newID)
    modifies codes
    ensures codes.Valid()
    ensures inactivateErr.Some? ==>
      err == Some(NewBadRequest("failed to create code")) && codes.rows == old(codes.rows)
    ensures inactivateErr.None? && insertErr.Some? ==>
      err == Some(NewBadRequest("failed to create otp code"))
      && codes.rows == InactivatedRows(old(codes.rows), userID)
    ensures inactivateErr.None? && insertErr.None? ==>
      err.None?
      && codes.rows == InactivatedRows(old(codes.rows), userID) + [NewCodeRow(newID, userID, digits, now)]
      && ActiveOf(codes.rows, userID) == {NewCodeRow(newID, userID, digits, now)}
  {
    var e := codes.InactivateAll(userID, inactivateErr);
    if e.Some? {
      return Some(NewBadRequest("failed to create code"));
    }
    InactivateAllKeepsValid(old(codes.rows), userID);
    assert FreshId(codes.rows, newID) || insertErr.Some? by {
      assert forall i :: 0 <= i < |codes.rows| ==> codes.rows[i].id == old(codes.rows)[i].id;
    }
    var entity := new Code.New(newID, userID, digits, now);
    if insertErr.None? {
      InsertAfterInactivate(old(codes.rows), entity.Model());
    }
    e := codes.Insert(entity.Model(), insertErr);
    if e.Some? {
      return Some(NewBadRequest("failed to create otp code"));
    }
    return None;
  }

  /** The row NewEntity builds. */
  function NewCodeRow(newID: string, userID: string, digits: string, now: int): CodeModel {
    CodeModel(newID, userID, digits, true, 0, None, now + Ttl, now, now)
  }

  // ---------------------------------------------------------------------
  // Properties of the decision

  /** Every outcome writes back the loaded code with one more attempt; id, user and code never change. */
  lemma DecideCountsAttempt(loaded: CodeModel, input: string, now: int)
    ensures var w := Decide(loaded, input, now).written;
      w.attempts == loaded.attempts + 1 && w.id == loaded.id && w.userID == loaded.userID
      && w.code == loaded.code && w.expiresAt == loaded.expiresAt && w.createdAt == loaded.createdAt
      && w.updatedAt == now
  {
  }

  /** Expiry is checked first: an expired code is Forbidden even when the input matches. */
  lemma ExpiredIsForbidden(loaded: CodeModel, now: int)
    requires now > loaded.expiresAt
    ensures var d := Decide(loaded, loaded.code, now);
      !d.valid && TagOf(d.err) == Forbidden && HttpErrorStatus(d.err.value) == StatusForbidden
      && d.written.active == loaded.active && d.written.usedAt == loaded.usedAt
  {
  }

  /**
   * The attempt is counted before the limit is checked: a code stored with
   * two or more attempts is refused even with the right input.
   */
  lemma LimitCountsThisAttempt(loaded: CodeModel, now: int)
    requires now <= loaded.expiresAt && loaded.attempts >= MaxAttempts - 1
    ensures var d := Decide(loaded, loaded.code, now);
      !d.valid && d.err == Some(NewForbidden("max code attempts reached for this code"))
  {
  }

  /** A wrong input on a live code is a soft failure: no error, the code stays as active as it was. */
  lemma MismatchIsSoft(loaded: CodeModel, input: string, now: int)
    requires now <= loaded.expiresAt && loaded.attempts + 1 < MaxAttempts && input != loaded.code
    ensures var d := Decide(loaded, input, now);
      !d.valid && d.err.None? && d.written.active == loaded.active && d.written.usedAt == loaded.usedAt
  {
  }

  /** Acceptance happens exactly for a live, non-exhausted code with a matching input, and uses the code up. */
  lemma AcceptIff(loaded: CodeModel, input: string, now: int)
    ensures Decide(loaded, input, now).valid <==>
      now <= loaded.expiresAt && loaded.attempts + 1 < MaxAttempts && input == loaded.code
    ensures Decide(loaded, input, now).valid ==>
      var w := Decide(loaded, input, now).written;
      !w.active && w.usedAt == Some(now) && Decide(loaded, input, now).err.None?
    ensures !Decide(loaded, input, now).valid ==> Decide(loaded, input, now).written.usedAt == loaded.usedAt
  {
  }

  /** A fresh code accepts its own digits on the first try, at any instant up to its expiry. */
  lemma FreshCodeAccepts(newID: string, userID: string, digits: string, created: int, now: int)
    requires created <= now <= created + Ttl
    ensures Decide(NewCodeRow(newID, userID, digits, created), digits, now).valid
  {
  }

  // ---------------------------------------------------------------------
  // Properties of a whole call

  /**
   * A lookup that fails or finds no active code answers without writing:
   * NotFound when there is no code, BadRequest for a driver failure.
   */
  lemma NoCodeNoWrite(rows: seq<CodeModel>, userID: string, input: string, now: int,
                      lookupErr: Option<Error>, updateErr: Option<Error>)
    requires lookupErr.Some? || ActiveRow(rows, userID).None?
    ensures var o := VerifyOutcome(rows, userID, input, now, lookupErr, updateErr);
      !o.valid && o.rows == rows
      && TagOf(o.err) == (if lookupErr.Some? then BadRequest else NotFound)
  {
  }

  /** A failed write turns every decision, an accepted code included, into BadRequest. */
  lemma FailedWriteIsBadRequest(rows: seq<CodeModel>, userID: string, input: string, now: int,
                                updateErr: Option<Error>)
    requires ActiveRow(rows, userID).Some? && updateErr.Some?
    ensures var o := VerifyOutcome(rows, userID, input, now, None, updateErr);
      !o.valid && o.err == Some(NewBadRequest("failed to verify code")) && o.rows == rows
  {
  }

  /**
   * When the write succeeds, the loaded code is stored with one more
   * attempt, and every other row is left as it was.
   */
  lemma WriteCountsAttempt(rows: seq<CodeModel>, userID: string, input: string, now: int, i: nat)
    requires i < |rows| && ActiveRow(rows, userID).Some?
    ensures var loaded := ActiveRow(rows, userID).value;
      var o := VerifyOutcome(rows, userID, input, now, None, None);
      (rows[i] == loaded ==> o.rows[i].attempts == loaded.attempts + 1 && o.rows[i].id == loaded.id)
      && (rows[i].id != loaded.id ==> o.rows[i] == rows[i])
  {
    var loaded := ActiveRow(rows, userID).value;
    var w := Decide(loaded, input, now).written;
    DecideCountsAttempt(loaded, input, now);
    assert VerifyOutcome(rows, userID, input, now, None, None).rows == UpdatedRows(rows, w);
    assert UpdatedRows(rows, w)[i] == UpdatedRow(rows[i], w);
  }

  /** After an accepted code the user has no active code left: a code works once. */
  lemma AcceptedCodeIsConsumed(rows: seq<CodeModel>, userID: string, input: string, now: int)
    requires UniqueIds(rows) && AtMostOneActive(rows)
    requires VerifyOutcome(rows, userID, input, now, None, None).valid
    ensures ActiveOf(VerifyOutcome(rows, userID, input, now, None, None).rows, userID) == {}
  {
    var loaded := ActiveRow(rows, userID).value;
    var w := Decide(loaded, input, now).written;
    var after := UpdatedRows(rows, w);
    assert VerifyOutcome(rows, userID, input, now, None, None).rows == after;
    var k :| 0 <= k < |rows| && rows[k] == loaded;
    forall x | x in after
      ensures !(x.userID == userID && x.active)
    {
      var i :| 0 <= i < |after| && after[i] == x;
    }
  }
}
