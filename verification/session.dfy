/**
 * The session service (internal/modules/session/service.go) over the
 * sessions table (internal/modules/session/repository.go). The session
 * entity's constructor is not part of this model: the row it builds is
 * taken to be active, to expire at `expires`, and to carry `now` as both
 * stamps; whether it fails is the parameter `entityErr`. The user-agent
 * parser is a parameter too: `browser` and `os` are what it reads from the
 * raw agent string. Signed tokens are represented by their claims.
 */
module Session {
  import opened Wrappers
  import opened Fault
  import opened Token
  import opened Store
  import ModuleUser
  import ModuleUserService
  import FaultValue

  /** A row of the sessions table. */
  datatype SessionModel = SessionModel(
    id: string, userID: string, agent: string, ip: string, refreshToken: Claims,
    active: bool, expires: int, created: int, updated: int)

  /** The stored agent: "<browser> em <OS>". */
  function AgentLabel(browser: string, os: string): (s: string)
    ensures |s| == |browser| + 4 + |os|
    ensures s[..|browser|] == browser && s[|browser|..|browser| + 4] == " em " && s[|browser| + 4..] == os
  {
    browser + " em " + os
  }

  /** The repository's wrapper around a failed INSERT. */
  function InsertError(e: Error): Error {
    Wrapped("failed to insert session", e)
  }

  /** The row CreateSession inserts. */
  function NewRow(id: string, userID: string, ip: string, browser: string, os: string,
                  refreshToken: Claims, expires: int, now: int): SessionModel {
    SessionModel(id, userID, AgentLabel(browser, os), ip, refreshToken, true, expires, now, now)
  }

  /**
   * CreateSession: look the user up through the user service (its error is
   * returned unchanged), build the session, insert it, and answer its id.
   * These faults come from the value-returning constructors.
   */
  method CreateSession(users: Table<ModuleUser.UserModel>, sessions: Table<SessionModel>,
                       userID: string, ip: string, browser: string, os: string, refreshToken: Claims,
                       newID: string, expires: int, now: int,
                       lookupErr: Option<Error>, entityErr: Option<Error>, insertErr: Option<Error>)
    returns (sessionID: string, err: Option<Error>)
    modifies sessions
    ensures err.Some? ==> sessionID == "" && sessions.rows == old(sessions.rows)
    ensures lookupErr.Some? ==> err == Some(NewBadRequest("failed to retrieve user"))
    ensures lookupErr.None? && (forall u :: u in users.rows ==> u.id != userID) ==>
      err == Some(NewNotFound("user not found"))
    ensures lookupErr.None? && (exists u :: u in users.rows && u.id == userID) ==>
      if entityErr.Some? then
        err == Some(FaultVal(FaultValue.NewUnprocessableEntity("failed to create session entity", entityErr)))
      else if insertErr.Some? then
        err == Some(FaultVal(FaultValue.NewBadRequest("failed to insert session entity",
                                                      Some(InsertError(insertErr.value)))))
      else
        err.None? && sessionID == newID
        && sessions.rows == old(sessions.rows) + [NewRow(newID, userID, ip, browser, os, refreshToken, expires, now)]
  {
    var userRecord := ModuleUserService.GetUserByID(users, userID, lookupErr);
    if userRecord.Failure? {
      return "", Some(userRecord.error);
    }
    var userAgent := AgentLabel(browser, os);
    if entityErr.Some? {
      return "", Some(FaultVal(FaultValue.NewUnprocessableEntity("failed to create session entity", entityErr)));
    }
    var row := SessionModel(newID, userRecord.value.id, userAgent, ip, refreshToken, true, expires, now, now);
    var e := sessions.Insert(row, insertErr);
    if e.Some? {
      return "", Some(FaultVal(FaultValue.NewBadRequest("failed to insert session entity", Some(InsertError(e.value)))));
    }
    return row.id, None;
  }

  /**
   * Reading the agent back: split at the first " em " at or after index k,
   * into what comes before it and what comes after it.
   */
  function CutFrom(s: string, k: nat): (r: Option<(string, string)>)
    decreases |s| - k
  {
    if k + 4 > |s| then None
    else if s[k..k + 4] == " em " then Some((s[..k], s[k + 4..]))
    else CutFrom(s, k + 1)
  }

  /** Splitting at the first " em " that starts at k or later gives back the browser and the OS. */
  lemma {:induction false} CutFromLabel(browser: string, os: string, k: nat)
    requires ' ' !in browser && k <= |browser|
    ensures CutFrom(AgentLabel(browser, os), k) == Some((browser, os))
    decreases |browser| - k
  {
    var s := AgentLabel(browser, os);
    if k < |browser| {
      assert s[k] == browser[k];
      assert s[k..k + 4][0] == s[k];
      CutFromLabel(browser, os, k + 1);
    }
  }

  /**
   * The browser and the OS can be read back from the stored agent: when the
   * browser name holds no space, the first " em " in it is the separator.
   */
  lemma AgentLabelReadBack(browser: string, os: string)
    requires ' ' !in browser
    ensures CutFrom(AgentLabel(browser, os), 0) == Some((browser, os))
  {
    CutFromLabel(browser, os, 0);
  }
}
