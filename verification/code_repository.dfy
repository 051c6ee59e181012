/**
 * The codes table and the four statements the repository runs on it
 * (internal/domain/code/repository.go). Rows are kept in insertion order.
 * Each statement receives the database's verdict as `dbErr`: None when the
 * statement runs, Some(e) when the driver fails with e, in which case no
 * row changes.
 */
module CodeRepository {
  import opened Wrappers
  import opened Fault
  import opened CodeEntity

  /** Row ids are unique (the primary key). */
  predicate UniqueIds(rows: seq<CodeModel>) {
    forall i, j :: 0 <= i < j < |rows| ==> rows[i].id != rows[j].id
  }

  /** No user has two active codes. */
  predicate AtMostOneActive(rows: seq<CodeModel>) {
    forall i, j :: 0 <= i < j < |rows| && rows[i].active && rows[j].active ==> rows[i].userID != rows[j].userID
  }

  predicate FreshId(rows: seq<CodeModel>, id: string) {
    forall i :: 0 <= i < |rows| ==> rows[i].id != id
  }

  /** The active codes of a user. */
  function ActiveOf(rows: seq<CodeModel>, user: string): set<CodeModel> {
    set r | r in rows && r.userID == user && r.active
  }

  /** The row `SELECT ... WHERE user_id = $1 AND active = TRUE LIMIT 1` yields: the first such row. */
  function ActiveRow(rows: seq<CodeModel>, user: string): (r: Option<CodeModel>)
    ensures r.Some? <==> ActiveOf(rows, user) != {}
    ensures r.Some? ==> r.value in ActiveOf(rows, user)
  {
    if rows == [] then None
    else if rows[0].userID == user && rows[0].active then
      assert rows[0] in ActiveOf(rows, user);
      Some(rows[0])
    else
      assert ActiveOf(rows, user) == ActiveOf(rows[1..], user) by {
        assert forall r :: r in rows <==> r == rows[0] || r in rows[1..];
      }
      ActiveRow(rows[1..], user)
  }

  /** The SET list of Update applied to one row: only rows matching both id and user_id change. */
  function UpdatedRow(row: CodeModel, m: CodeModel): CodeModel {
    if row.id == m.id && row.userID == m.userID then
      row.(active := m.active, attempts := m.attempts, usedAt := m.usedAt,
           expiresAt := m.expiresAt, updatedAt := m.updatedAt)
    else row
  }

  function UpdatedRows(rows: seq<CodeModel>, m: CodeModel): (r: seq<CodeModel>)
    ensures |r| == |rows|
  {
    seq(|rows|, i requires 0 <= i < |rows| => UpdatedRow(rows[i], m))
  }

  /** `SET active = FALSE WHERE user_id = $1 AND active = TRUE` on one row. */
  function InactivatedRow(row: CodeModel, user: string): CodeModel {
    if row.userID == user && row.active then row.(active := false) else row
  }

  function InactivatedRows(rows: seq<CodeModel>, user: string): (r: seq<CodeModel>)
    ensures |r| == |rows|
  {
    seq(|rows|, i requires 0 <= i < |rows| => InactivatedRow(rows[i], user))
  }

  class CodeTable {
    var rows: seq<CodeModel>

    /** The table's invariant: unique ids and at most one active code per user. */
    predicate Valid()
      reads this
    {
      UniqueIds(rows) && AtMostOneActive(rows)
    }

    constructor Empty()
      ensures rows == [] && Valid()
    {
      rows := [];
    }

    /** Update: rewrite the mutable columns of the row whose id and user_id match `m`. */
    method Update(m: CodeModel, dbErr: Option<Error>) returns (err: Option<Error>)
      modifies this
      ensures dbErr.Some? ==> rows == old(rows) && err == Some(NewDefault("failed to update code", dbErr))
      ensures dbErr.None? ==> rows == UpdatedRows(old(rows), m) && err.None?
    {
      if dbErr.Some? {
        return Some(NewDefault("failed to update code", dbErr));
      }
      var i := 0;
      while i < |rows|
        invariant 0 <= i <= |rows| == |old(rows)|
        invariant forall k :: 0 <= k < i ==> rows[k] == UpdatedRow(old(rows)[k], m)
        invariant forall k :: i <= k < |rows| ==> rows[k] == old(rows)[k]
      {
        rows := rows[i := UpdatedRow(rows[i], m)];
        i := i + 1;
      }
      return None;
    }

    /**
     * GetByUserID: the active code of the user. No such row is reported as a
     * NotFound-tagged fault; a driver failure as an untagged one.
     */
    method GetByUserID(user: string, dbErr: Option<Error>) returns (r: Result<CodeModel, Error>)
      ensures dbErr.Some? ==> r == Failure(NewDefault("failed to retrieve code", dbErr))
      ensures dbErr.None? && ActiveRow(rows, user).None? ==>
        r == Failure(FaultPtr(Fault(StatusBadRequest, NotFound, "code not found", None)))
      ensures dbErr.None? && ActiveRow(rows, user).Some? ==> r == Success(ActiveRow(rows, user).value)
    {
      if dbErr.Some? {
        return Failure(NewDefault("failed to retrieve code", dbErr));
      }
      var i := 0;
      while i < |rows|
        invariant 0 <= i <= |rows|
        invariant ActiveRow(rows[i..], user) == ActiveRow(rows, user)
      {
        assert rows[i..][0] == rows[i] && rows[i..][1..] == rows[i + 1..];
        if rows[i].userID == user && rows[i].active {
          return Success(rows[i]);
        }
        i := i + 1;
      }
      return Failure(FaultPtr(Fault(StatusBadRequest, NotFound, "code not found", None)));
    }

    /** InactivateAll: every active code of the user becomes inactive; no other row changes. */
    method InactivateAll(user: string, dbErr: Option<Error>) returns (err: Option<Error>)
      modifies this
      ensures dbErr.Some? ==> rows == old(rows) && err == Some(NewDefault("failed to update codes", dbErr))
      ensures dbErr.None? ==> rows == InactivatedRows(old(rows), user) && err.None?
    {
      if dbErr.Some? {
        return Some(NewDefault("failed to update codes", dbErr));
      }
      var i := 0;
      while i < |rows|
        invariant 0 <= i <= |rows| == |old(rows)|
        invariant forall k :: 0 <= k < i ==> rows[k] == InactivatedRow(old(rows)[k], user)
        invariant forall k :: i <= k < |rows| ==> rows[k] == old(rows)[k]
      {
        if rows[i].userID == user && rows[i].active {
          rows := rows[i := rows[i].(active := false)];
        }
        i := i + 1;
      }
      return None;
    }

    /**
     * Insert: one row holding all nine fields of `m` is added. The primary
     * key makes the database reject an id already present, so a run without
     * a driver error has a fresh id.
     */
    method Insert(m: CodeModel, dbErr: Option<Error>) returns (err: Option<Error>)
      requires dbErr.None? ==> FreshId(rows, m.id)
      modifies this
      ensures dbErr.Some? ==> rows == old(rows) && err == Some(NewDefault("failed to insert product", dbErr))
      ensures dbErr.None? ==> rows == old(rows) + [m] && err.None?
    {
      if dbErr.Some? {
        return Some(NewDefault("failed to insert product", dbErr));
      }
      rows := rows + [m];
      return None;
    }
  }

  // ---------------------------------------------------------------------
  // What the statements do to the table's invariant and to a user's codes

  /** InactivateAll leaves the user without an active code and every other user's codes as they were. */
  lemma InactivateAllEffect(rows: seq<CodeModel>, user: string, other: string)
    requires other != user
    ensures ActiveOf(InactivatedRows(rows, user), user) == {}
    ensures ActiveOf(InactivatedRows(rows, user), other) == ActiveOf(rows, other)
    ensures forall i :: 0 <= i < |rows| && rows[i].userID != user ==> InactivatedRows(rows, user)[i] == rows[i]
  {
    var r := InactivatedRows(rows, user);
    forall x | x in r
      ensures x.userID == user ==> !x.active
      ensures x.userID == other ==> (x in rows && (x.active <==> x in ActiveOf(rows, other)))
    {
      var i :| 0 <= i < |r| && r[i] == x;
    }
    forall x | x in ActiveOf(rows, other)
      ensures x in r
    {
      var i :| 0 <= i < |rows| && rows[i] == x;
      assert r[i] == x;
    }
  }

  /** InactivateAll keeps the invariant. */
  lemma InactivateAllKeepsValid(rows: seq<CodeModel>, user: string)
    requires UniqueIds(rows) && AtMostOneActive(rows)
    ensures UniqueIds(InactivatedRows(rows, user)) && AtMostOneActive(InactivatedRows(rows, user))
  {
    var r := InactivatedRows(rows, user);
    assert forall i :: 0 <= i < |r| ==> r[i].id == rows[i].id && r[i].userID == rows[i].userID && (r[i].active ==> rows[i].active);
  }

  /** Inserting an active code after InactivateAll leaves it as the user's only active code. */
  lemma InsertAfterInactivate(rows: seq<CodeModel>, m: CodeModel)
    requires UniqueIds(rows) && AtMostOneActive(rows) && FreshId(rows, m.id)
    requires m.active
    ensures var after := InactivatedRows(rows, m.userID) + [m];
      UniqueIds(after) && AtMostOneActive(after) && ActiveOf(after, m.userID) == {m}
  {
    var r := InactivatedRows(rows, m.userID);
    InactivateAllKeepsValid(rows, m.userID);
    InactivateAllEffect(rows, m.userID, m.userID + "'");
    var after := r + [m];
    assert forall i :: 0 <= i < |r| ==> r[i].id == rows[i].id;
    assert m in ActiveOf(after, m.userID);
  }

  /**
   * Update keeps the invariant when the new values leave the row inactive,
   * or when the row they go to is the user's active code.
   */
  lemma UpdateKeepsValid(rows: seq<CodeModel>, m: CodeModel)
    requires UniqueIds(rows) && AtMostOneActive(rows)
    requires m.active ==> ActiveRow(rows, m.userID).Some? && ActiveRow(rows, m.userID).value.id == m.id
    ensures UniqueIds(UpdatedRows(rows, m)) && AtMostOneActive(UpdatedRows(rows, m))
  {
    var r := UpdatedRows(rows, m);
    assert forall i :: 0 <= i < |r| ==> r[i].id == rows[i].id && r[i].userID == rows[i].userID;
    forall i, j | 0 <= i < j < |r| && r[i].active && r[j].active
      ensures r[i].userID != r[j].userID
    {
      if rows[i].active && rows[j].active {
      } else if m.active {
        var a := ActiveRow(rows, m.userID).value;
        var k :| 0 <= k < |rows| && rows[k] == a;
      }
    }
  }

  /** Update never rewrites id, user_id, code or created_at, and touches only the matching row. */
  lemma UpdateKeepsIdentity(rows: seq<CodeModel>, m: CodeModel, i: nat)
    requires i < |rows|
    ensures var r := UpdatedRows(rows, m)[i];
      r.id == rows[i].id && r.userID == rows[i].userID && r.code == rows[i].code
      && r.createdAt == rows[i].createdAt
      && (rows[i].id != m.id || rows[i].userID != m.userID ==> r == rows[i])
  {
  }
}
