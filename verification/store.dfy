/**
 * The SQL repositories other than the codes table, reduced to tables of
 * rows. A read returns a row, no row, or the driver's error; a write either
 * happens or fails with the driver's error and changes nothing. The
 * driver's verdict on each statement is a parameter (`dbErr`).
 */
module Store {
  import opened Wrappers
  import opened Fault

  /** What a repository read yields: Go's `(*Row, error)`. */
  datatype Lookup<R> = Found(row: R) | Absent | Failed(err: Error)

  /** The first row satisfying p (the row a `... LIMIT 1` or a unique-key lookup yields). */
  function Find<R(!new)>(rows: seq<R>, p: R -> bool): (r: Option<R>)
    ensures r.Some? ==> r.value in rows && p(r.value)
    ensures r.None? <==> forall x :: x in rows ==> !p(x)
  {
    if rows == [] then None
    else if p(rows[0]) then Some(rows[0])
    else
      assert forall x :: x in rows <==> x == rows[0] || x in rows[1..];
      Find(rows[1..], p)
  }

  /** Apply f to every row satisfying p: an UPDATE ... WHERE. */
  function UpdateWhere<R>(rows: seq<R>, p: R -> bool, f: R -> R): (r: seq<R>)
    ensures |r| == |rows|
    ensures forall i :: 0 <= i < |rows| ==> r[i] == if p(rows[i]) then f(rows[i]) else rows[i]
  {
    seq(|rows|, i requires 0 <= i < |rows| => if p(rows[i]) then f(rows[i]) else rows[i])
  }

  /** Drop every row satisfying p, keeping the order of the others: a DELETE ... WHERE. */
  function DeleteWhere<R(!new)>(rows: seq<R>, p: R -> bool): (r: seq<R>)
    ensures |r| <= |rows|
    ensures forall x :: x in r <==> x in rows && !p(x)
  {
    if rows == [] then []
    else
      assert forall x :: x in rows <==> x == rows[0] || x in rows[1..];
      (if p(rows[0]) then [] else [rows[0]]) + DeleteWhere(rows[1..], p)
  }

  class Table<R(!new)> {
    var rows: seq<R>

    constructor Of(initial: seq<R>)
      ensures rows == initial
    {
      rows := initial;
    }

    /** A lookup by p: the driver's error, else the first matching row, else no row. */
    function Read(p: R -> bool, dbErr: Option<Error>): (r: Lookup<R>)
      reads this
      ensures dbErr.Some? ==> r == Failed(dbErr.value)
      ensures dbErr.None? && r.Found? ==> r.row in rows && p(r.row)
      ensures dbErr.None? ==> (r.Absent? <==> forall x :: x in rows ==> !p(x))
    {
      if dbErr.Some? then Failed(dbErr.value)
      else match Find(rows, p)
        case Some(x) => Found(x)
        case None => Absent
    }

    method Insert(x: R, dbErr: Option<Error>) returns (err: Option<Error>)
      modifies this
      ensures err == dbErr
      ensures dbErr.Some? ==> rows == old(rows)
      ensures dbErr.None? ==> rows == old(rows) + [x]
    {
      if dbErr.None? {
        rows := rows + [x];
      }
      return dbErr;
    }

    method Update(p: R -> bool, f: R -> R, dbErr: Option<Error>) returns (err: Option<Error>)
      modifies this
      ensures err == dbErr
      ensures dbErr.Some? ==> rows == old(rows)
      ensures dbErr.None? ==> rows == UpdateWhere(old(rows), p, f)
    {
      if dbErr.None? {
        rows := UpdateWhere(rows, p, f);
      }
      return dbErr;
    }

    method Delete(p: R -> bool, dbErr: Option<Error>) returns (err: Option<Error>)
      modifies this
      ensures err == dbErr
      ensures dbErr.Some? ==> rows == old(rows)
      ensures dbErr.None? ==> rows == DeleteWhere(old(rows), p)
    {
      if dbErr.None? {
        rows := DeleteWhere(rows, p);
      }
      return dbErr;
    }
  }

  /** An UPDATE by key leaves the rows that do not match exactly as they were. */
  lemma UpdateWhereKeepsOthers<R>(rows: seq<R>, p: R -> bool, f: R -> R, x: R)
    requires x in rows && !p(x)
    ensures x in UpdateWhere(rows, p, f)
  {
    var i :| 0 <= i < |rows| && rows[i] == x;
    assert UpdateWhere(rows, p, f)[i] == x;
  }

  /** After an UPDATE, every row that matched now carries f's values. */
  lemma {:induction false} UpdateWhereReaches<R>(rows: seq<R>, p: R -> bool, f: R -> R, x: R)
    requires x in rows && p(x)
    ensures f(x) in UpdateWhere(rows, p, f)
  {
    var i :| 0 <= i < |rows| && rows[i] == x;
    assert UpdateWhere(rows, p, f)[i] == f(x);
  }

  /**
   * An UPDATE that keeps its own key: the first matching row stays the
   * first match, now carrying f's values.
   */
  lemma {:induction false} FindAfterUpdate<R(!new)>(rows: seq<R>, p: R -> bool, f: R -> R)
    requires Find(rows, p).Some? && p(f(Find(rows, p).value))
    ensures Find(UpdateWhere(rows, p, f), p) == Some(f(Find(rows, p).value))
  {
    var r := UpdateWhere(rows, p, f);
    if p(rows[0]) {
      assert r[0] == f(rows[0]);
    } else {
      assert r[0] == rows[0];
      assert r[1..] == UpdateWhere(rows[1..], p, f);
      FindAfterUpdate(rows[1..], p, f);
    }
  }
}
