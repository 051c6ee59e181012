/**
 * VerifyDuplicatedConstraintKey (pkg/dbutil/dbutil.go): recognise a
 * unique-constraint violation reported by the Postgres driver and turn it
 * into a Conflict naming the offending column.
 *
 * The column is found with the RE2 pattern `(?i)Key\s*\(\s*(.*?)\s*\)\s*=`
 * under leftmost-first semantics. Its meaning is written out below:
 *   - the match starts at the leftmost position holding "key" in any case
 *     (with (?i), 'k' also matches KELVIN SIGN U+212A) for which the rest
 *     of the pattern can match;
 *   - `\s` is RE2's [\t\n\f\r ];
 *   - the greedy `\s*` after "(" takes the whole run of white space: giving
 *     some back would only make the lazy group longer and would not allow
 *     a match that the full run does not;
 *   - the lazy group `(.*?)` ends at the first position from which
 *     `\s*\)\s*=` matches; `.` does not match a newline.
 */
module DbUtil {
  import opened Wrappers
  import opened Fault

  /** Postgres SQLSTATE for unique_violation. */
  const UniqueViolation: string := "23505"

  predicate IsSpace(c: char) {
    c == '\t' || c == '\n' || c == '\U{000C}' || c == '\r' || c == ' '
  }

  /** The first index at or after i that does not hold white space. */
  function SkipSpace(s: string, i: nat): (j: nat)
    requires i <= |s|
    ensures i <= j <= |s|
    ensures j < |s| ==> !IsSpace(s[j])
    decreases |s| - i
  {
    if i < |s| && IsSpace(s[i]) then SkipSpace(s, i + 1) else i
  }

  /** `(?i)Key` matches at p. */
  predicate KeyAt(s: string, p: nat) {
    p + 3 <= |s|
    && (s[p] == 'K' || s[p] == 'k' || s[p] == '\U{212A}')
    && (s[p + 1] == 'E' || s[p + 1] == 'e')
    && (s[p + 2] == 'Y' || s[p + 2] == 'y')
  }

  /** `\s*\)\s*=` matches at b. */
  predicate ClosesAt(s: string, b: nat)
    requires b <= |s|
  {
    var j := SkipSpace(s, b);
    j < |s| && s[j] == ')' && SkipSpace(s, j + 1) < |s| && s[SkipSpace(s, j + 1)] == '='
  }

  /** Where the lazy group that has reached b ends: the first closing position, without crossing a newline. */
  function LazyEnd(s: string, b: nat): (r: Option<nat>)
    requires b <= |s|
    ensures r.Some? ==> b <= r.value <= |s| && ClosesAt(s, r.value)
    ensures r.Some? ==> forall k :: b <= k < r.value ==> s[k] != '\n' && !ClosesAt(s, k)
    decreases |s| - b
  {
    if ClosesAt(s, b) then Some(b)
    else if b < |s| && s[b] != '\n' then LazyEnd(s, b + 1)
    else None
  }

  /**
   * Where the captured group of a match starting at p begins and ends, if
   * the pattern matches there.
   */
  function GroupBounds(s: string, p: nat): (r: Option<(nat, nat)>)
    requires p <= |s|
    ensures r.Some? ==> r.value.0 <= r.value.1 <= |s| && ClosesAt(s, r.value.1)
    ensures r.Some? ==> r.value.0 < |s| ==> !IsSpace(s[r.value.0])
    ensures r.Some? ==> forall k :: r.value.0 <= k < r.value.1 ==> s[k] != '\n' && !ClosesAt(s, k)
  {
    if !KeyAt(s, p) then None
    else
      var j := SkipSpace(s, p + 3);
      if j < |s| && s[j] == '(' then
        var a := SkipSpace(s, j + 1);
        match LazyEnd(s, a)
        case Some(b) => Some((a, b))
        case None => None
      else None
  }

  /** The group captured by a match starting at p. */
  function MatchAt(s: string, p: nat): (r: Option<string>)
    requires p <= |s|
  {
    match GroupBounds(s, p)
    case Some((a, b)) => Some(s[a..b])
    case None => None
  }

  /** FindStringSubmatch(...)[1] from position p on: the group of the leftmost match. */
  function FieldFrom(s: string, p: nat): (r: Option<string>)
    requires p <= |s|
    decreases |s| - p
  {
    if p == |s| then None
    else if MatchAt(s, p).Some? then MatchAt(s, p)
    else FieldFrom(s, p + 1)
  }

  function FindField(detail: string): Option<string> {
    FieldFrom(detail, 0)
  }

  /** errors.As(target, &pqErr) with a *pq.Error target: the first driver error of the chain. */
  function AsPq(e: Error): (r: Option<Error>)
    ensures r.Some? ==> r.value.Pq?
  {
    match e
    case Pq(_, _, _) => Some(e)
    case Wrapped(_, inner) => AsPq(inner)
    case _ => None
  }

  predicate IsUniqueViolation(e: Error) {
    AsPq(e).Some? && AsPq(e).value.code == UniqueViolation
  }

  /**
   * VerifyDuplicatedConstraintKey. Go indexes matches[1] without checking,
   * so a violation whose detail does not match the pattern panics: that is
   * the precondition.
   */
  function VerifyDuplicatedConstraintKey(target: Error): (r: Option<Error>)
    requires IsUniqueViolation(target) ==> FindField(AsPq(target).value.detail).Some?
    ensures r.None? <==> !IsUniqueViolation(target)
    ensures r.Some? ==>
      var field := FindField(AsPq(target).value.detail).value;
      r.value == NewConflict("field " + field + " is already taken")
      && TagOf(r) == Conflict && HttpErrorStatus(r.value) == StatusConflict
  {
    if IsUniqueViolation(target) then
      var field := FindField(AsPq(target).value.detail).value;
      Some(NewConflict("field " + field + " is already taken"))
    else None
  }

  // ---------------------------------------------------------------------
  // Properties of the extracted field

  lemma SkipSpaceOverSpace(s: string, i: nat)
    requires i < |s| && IsSpace(s[i])
    ensures SkipSpace(s, i) == SkipSpace(s, i + 1)
  {
  }

  /** Every character SkipSpace passes over is white space. */
  lemma {:induction false} SkipSpaceSkipsSpace(s: string, i: nat, k: nat)
    requires i <= |s| && i <= k < SkipSpace(s, i)
    ensures IsSpace(s[k])
    decreases k - i
  {
    if i < k {
      SkipSpaceSkipsSpace(s, i + 1, k);
    }
  }

  /** Skipping white space stops at or before any character that is not white space. */
  lemma {:induction false} SkipSpaceStops(s: string, i: nat, m: nat)
    requires i <= m < |s| && !IsSpace(s[m])
    ensures SkipSpace(s, i) <= m
    decreases m - i
  {
    if i < m && IsSpace(s[i]) {
      SkipSpaceStops(s, i + 1, m);
    }
  }

  /** A closing pattern preceded by white space also matches one position earlier. */
  lemma ClosesAfterSpace(s: string, i: nat)
    requires i < |s|
    ensures IsSpace(s[i]) && ClosesAt(s, i + 1) ==> ClosesAt(s, i)
  {
    if IsSpace(s[i]) {
      SkipSpaceOverSpace(s, i);
    }
  }

  /** The text between a group's bounds holds no newline and has no white space at either end. */
  lemma GroupIsTrimmed(s: string, a: nat, b: nat)
    requires a <= b <= |s| && ClosesAt(s, b)
    requires a < |s| ==> !IsSpace(s[a])
    requires forall k :: a <= k < b ==> s[k] != '\n' && !ClosesAt(s, k)
    ensures '\n' !in s[a..b]
    ensures a < b ==> !IsSpace(s[a]) && !IsSpace(s[b - 1])
  {
    if a < b {
      ClosesAfterSpace(s, b - 1);
    }
  }

  /** A captured group holds no newline and has no white space at either end. */
  lemma FieldIsTrimmed(s: string, p: nat)
    requires p <= |s| && MatchAt(s, p).Some?
    ensures var f := MatchAt(s, p).value;
      '\n' !in f && (f != [] ==> !IsSpace(f[0]) && !IsSpace(f[|f| - 1]))
  {
    var bounds := GroupBounds(s, p).value;
    GroupIsTrimmed(s, bounds.0, bounds.1);
  }

  /** The field comes from the leftmost position where the pattern matches. */
  lemma {:induction false} FieldIsLeftmost(s: string, p: nat, q: nat)
    requires p <= q < |s| && MatchAt(s, q).Some?
    requires forall k :: p <= k < q ==> MatchAt(s, k).None?
    ensures FieldFrom(s, p) == MatchAt(s, q)
    decreases q - p
  {
    if p < q {
      FieldIsLeftmost(s, p + 1, q);
    }
  }

  lemma {:induction false} LazyEndScan(s: string, b: nat, e: nat)
    requires b <= e <= |s| && ClosesAt(s, e)
    requires forall k :: b <= k < e ==> s[k] != '\n' && !ClosesAt(s, k)
    ensures LazyEnd(s, b) == Some(e)
    decreases e - b
  {
    if b < e {
      LazyEndScan(s, b + 1, e);
    }
  }

  /** The detail text Postgres reports for a unique violation on `column` with value `value`. */
  function PostgresDetail(column: string, value: string): string {
    "Key (" + column + ")=(" + value + ") already exists."
  }

  /**
   * Postgres' own detail text yields the column back, for any column name
   * that has no newline or ')' and is not padded with white space.
   */
  lemma ColumnRoundTrip(column: string, value: string)
    requires '\n' !in column && ')' !in column
    requires column != [] ==> !IsSpace(column[0]) && !IsSpace(column[|column| - 1])
    ensures FindField(PostgresDetail(column, value)) == Some(column)
  {
    var s := PostgresDetail(column, value);
    ColumnBounds(column, value);
    assert s[5..5 + |column|] == column;
    assert MatchAt(s, 0) == Some(column);
  }

  /** In Postgres' detail text the group spans exactly the column name. */
  lemma ColumnBounds(column: string, value: string)
    requires '\n' !in column && ')' !in column
    requires column != [] ==> !IsSpace(column[0]) && !IsSpace(column[|column| - 1])
    ensures GroupBounds(PostgresDetail(column, value), 0) == Some((5, 5 + |column|))
  {
    var s := PostgresDetail(column, value);
    var e := 5 + |column|;
    assert s[..5] == "Key (" && s[e] == ')' && s[e + 1] == '=';
    assert KeyAt(s, 0);
    assert SkipSpace(s, 3) == 4 by {
      assert IsSpace(s[3]) && !IsSpace(s[4]);
    }
    assert SkipSpace(s, 5) == 5 by {
      if column != [] {
        assert s[5] == column[0];
      }
    }
    assert SkipSpace(s, e) == e && SkipSpace(s, e + 1) == e + 1;
    assert ClosesAt(s, e);
    forall k | 5 <= k < e
      ensures s[k] != '\n' && !ClosesAt(s, k)
    {
      ColumnDoesNotClose(column, value, k);
    }
    LazyEndScan(s, 5, e);
  }

  /** No position inside the column name closes the group: the name holds no ')' and does not end in white space. */
  lemma ColumnDoesNotClose(column: string, value: string, k: nat)
    requires '\n' !in column && ')' !in column
    requires column != [] ==> !IsSpace(column[|column| - 1])
    requires 5 <= k < 5 + |column|
    ensures var s := PostgresDetail(column, value); s[k] != '\n' && !ClosesAt(s, k)
  {
    var s := PostgresDetail(column, value);
    var e := 5 + |column|;
    assert s[5..e] == column;
    assert s[k] == column[k - 5];
    assert s[e - 1] == column[|column| - 1];
    var j := SkipSpace(s, k);
    SkipSpaceStops(s, k, e - 1);
    assert s[j] == column[j - 5];
  }

  /**
   * A unique violation reported by the driver, bare or wrapped, becomes
   * "field <column> is already taken" with status 409.
   */
  lemma DuplicateNamesColumn(column: string, value: string, msg: string, prefix: string)
    requires '\n' !in column && ')' !in column
    requires column != [] ==> !IsSpace(column[0]) && !IsSpace(column[|column| - 1])
    ensures FindField(PostgresDetail(column, value)) == Some(column)
    ensures var err := Pq(UniqueViolation, msg, PostgresDetail(column, value));
      VerifyDuplicatedConstraintKey(err) == Some(NewConflict("field " + column + " is already taken"))
      && VerifyDuplicatedConstraintKey(Wrapped(prefix, err)) == VerifyDuplicatedConstraintKey(err)
  {
    ColumnRoundTrip(column, value);
  }

  /** Any other driver code, or an error that holds no driver error, is not a duplicate. */
  lemma OtherErrorsPass(code: string, m: string, d: string, f: Fault)
    requires code != UniqueViolation
    ensures VerifyDuplicatedConstraintKey(Pq(code, m, d)).None?
    ensures VerifyDuplicatedConstraintKey(FaultPtr(f)).None?
    ensures VerifyDuplicatedConstraintKey(Plain(d)).None?
  {
  }
}
