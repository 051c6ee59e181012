/**
 * The user entity of the password flow (internal/modules/user/user.go).
 * The password hash (crypto.HashPassword) is a parameter: its outcome,
 * either the hashed text or the hasher's error. `newID` stands for
 * uid.New("user") and `now` for time.Now().
 */
module ModuleUser {
  import opened Wrappers
  import opened Fault

  /** A row of the users table (model.User). */
  datatype UserModel = UserModel(
    id: string, name: string, username: string, email: string, password: string,
    avatarURL: Option<string>, enabled: bool, locked: bool, created: int, updated: int)

  datatype User = User(
    id: string, name: string, username: string, email: string, password: string,
    avatarURL: Option<string>, enabled: bool, locked: bool, created: int, updated: int)
  {
    /** ToModel: a row carrying every field of the entity. */
    function ToModel(): (m: UserModel)
      ensures m.id == id && m.name == name && m.username == username && m.email == email
      ensures m.password == password && m.avatarURL == avatarURL
      ensures m.enabled == enabled && m.locked == locked && m.created == created && m.updated == updated
    {
      UserModel(id, name, username, email, password, avatarURL, enabled, locked, created, updated)
    }
  }

  /** validate: the first empty field, in the order name, password, e-mail, username. */
  function Validate(u: User): (r: Option<Error>)
    ensures r.None? <==> u.name != "" && u.password != "" && u.email != "" && u.username != ""
    ensures u.name == "" ==> r == Some(Plain("user name is required"))
    ensures u.name != "" && u.password == "" ==> r == Some(Plain("password is required"))
    ensures u.name != "" && u.password != "" && u.email == "" ==> r == Some(Plain("email is required"))
    ensures u.name != "" && u.password != "" && u.email != "" && u.username == "" ==>
      r == Some(Plain("username is required"))
  {
    if u.name == "" then Some(Plain("user name is required"))
    else if u.password == "" then Some(Plain("password is required"))
    else if u.email == "" then Some(Plain("email is required"))
    else if u.username == "" then Some(Plain("username is required"))
    else None
  }

  /**
   * New: hash first (a hash failure stops before validation), then build a
   * disabled, unlocked user without avatar and validate it.
   */
  function New(newID: string, name: string, username: string, email: string,
               hash: Result<string, Error>, now: int): (r: Result<User, Error>)
    ensures hash.Failure? ==> r == Failure(Wrapped("failed to hash password", hash.error))
    ensures hash.Success? ==>
      (r.Success? <==> name != "" && hash.value != "" && email != "" && username != "")
    ensures r.Success? ==>
      hash.Success? && r.value.password == hash.value
      && !r.value.enabled && !r.value.locked && r.value.avatarURL.None?
      && r.value.id == newID && r.value.name == name && r.value.username == username && r.value.email == email
      && r.value.created == now && r.value.updated == now
    ensures hash.Success? && r.Failure? ==>
      exists e :: Validate(User(newID, name, username, email, hash.value, None, false, false, now, now)) == Some(e)
                  && r.error == Wrapped("failed to create user entity", e)
  {
    match hash
    case Failure(e) => Failure(Wrapped("failed to hash password", e))
    case Success(hashed) =>
      var u := User(newID, name, username, email, hashed, None, false, false, now, now);
      match Validate(u)
      case Some(e) => Failure(Wrapped("failed to create user entity", e))
      case None => Success(u)
  }

  /** ToModel loses nothing: two entities with the same row are the same entity. */
  lemma ToModelInjective(u: User, v: User)
    requires u.ToModel() == v.ToModel()
    ensures u == v
  {
  }

  /** With every field empty, the name is reported; the messages follow the field order. */
  lemma ValidationOrder(newID: string, now: int)
    ensures New(newID, "", "", "", Success(""), now) ==
      Failure(Wrapped("failed to create user entity", Plain("user name is required")))
    ensures New(newID, "n", "", "", Success(""), now) ==
      Failure(Wrapped("failed to create user entity", Plain("password is required")))
    ensures New(newID, "n", "", "", Success("h"), now) ==
      Failure(Wrapped("failed to create user entity", Plain("email is required")))
    ensures New(newID, "n", "", "e", Success("h"), now) ==
      Failure(Wrapped("failed to create user entity", Plain("username is required")))
  {
  }
}
