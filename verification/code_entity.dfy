/**
 * The one-time code entity (internal/domain/code/entity.go).
 *
 * Time is an integer clock in nanoseconds, the unit of Go's time.Duration;
 * each operation that reads the clock receives the instant as `now`.
 */
module CodeEntity {
  import opened Wrappers

  const Minute: int := 60_000_000_000
  /** How long a code stays valid. */
  const Ttl: int := 3 * Minute
  /** Length of the generated code. */
  const CodeSize: nat := 6
  /** Attempts after which a code is exhausted. */
  const MaxAttempts: int := 3

  /** A row of the codes table (model.Code); usedAt is None while the code is unused. */
  datatype CodeModel = CodeModel(
    id: string,
    userID: string,
    code: string,
    active: bool,
    attempts: int,
    usedAt: Option<int>,
    expiresAt: int,
    createdAt: int,
    updatedAt: int)

  class Code {
    var id: string
    var userID: string
    var code: string
    var active: bool
    var attempts: int
    var usedAt: Option<int>
    var expiresAt: int
    var createdAt: int
    var updatedAt: int

    /** The row this entity is stored as: every field copied. */
    function Model(): CodeModel
      reads this
    {
      CodeModel(id, userID, code, active, attempts, usedAt, expiresAt, createdAt, updatedAt)
    }

    /** NewEntityFromModel: the entity holds exactly the row's fields. */
    constructor FromModel(m: CodeModel)
      ensures Model() == m
    {
      id := m.id;
      userID := m.userID;
      code := m.code;
      active := m.active;
      attempts := m.attempts;
      usedAt := m.usedAt;
      expiresAt := m.expiresAt;
      createdAt := m.createdAt;
      updatedAt := m.updatedAt;
    }

    /**
     * NewEntity: a fresh, active, unused code with no attempts, valid for
     * three minutes from now. `newID` stands for uid.New("code") and `digits`
     * for the output of nanorand.Gen(6), whose length is six.
     */
    constructor New(newID: string, user: string, digits: string, now: int)
      requires |digits| == CodeSize
      ensures Model() == CodeModel(newID, user, digits, true, 0, None, now + Ttl, now, now)
      ensures |code| == CodeSize && expiresAt - createdAt == Ttl && createdAt == updatedAt
    {
      id := newID;
      userID := user;
      code := digits;
      active := true;
      attempts := 0;
      usedAt := None;
      expiresAt := now + Ttl;
      createdAt := now;
      updatedAt := now;
    }

    /** time.Now().After(expiresAt): a code read exactly at its expiry instant is still valid. */
    predicate IsExpired(now: int)
      reads this
      ensures IsExpired(now) <==> now > expiresAt
      ensures now == expiresAt ==> !IsExpired(now)
    {
      now > expiresAt
    }

    /** The code is exhausted from the third attempt on. */
    predicate IsMaxAttempts()
      reads this
      ensures IsMaxAttempts() <==> attempts >= MaxAttempts
      ensures 0 <= attempts <= 2 ==> !IsMaxAttempts()
    {
      attempts >= MaxAttempts
    }

    /** Only `active` and `updatedAt` change. */
    method Deactivate(now: int)
      modifies this
      ensures Model() == old(Model()).(active := false, updatedAt := now)
    {
      active := false;
      updatedAt := now;
    }

    /** Attempts go up by exactly one; besides them only `updatedAt` changes. */
    method IncrementAttempt(now: int)
      modifies this
      ensures Model() == old(Model()).(attempts := old(attempts) + 1, updatedAt := now)
    {
      attempts := attempts + 1;
      updatedAt := now;
    }

    /** The code is used at `now`, inactive, and last updated at the same instant. */
    method MarkAsUsed(now: int)
      modifies this
      ensures Model() == old(Model()).(usedAt := Some(now), active := false, updatedAt := now)
      ensures usedAt == Some(updatedAt)
    {
      usedAt := Some(now);
      active := false;
      updatedAt := now;
    }
  }

  /**
   * Three successive attempts exhaust a new code and two do not, as
   * entity_test.go checks.
   */
  method ThirdAttemptExhausts(newID: string, user: string, digits: string, now: int)
    returns (afterTwo: bool, afterThree: bool)
    requires |digits| == CodeSize
    ensures !afterTwo && afterThree
  {
    var c := new Code.New(newID, user, digits, now);
    c.IncrementAttempt(now);
    c.IncrementAttempt(now);
    afterTwo := c.IsMaxAttempts();
    c.IncrementAttempt(now);
    afterThree := c.IsMaxAttempts();
  }
}
