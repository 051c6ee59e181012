/**
 * The error taxonomy of pkg/fault.
 *
 * The repository carries two generations of this package side by side: an
 * older one (tag.go, fault.go, instances.go) whose constructors take a cause
 * and return a Fault by value, and a newer one (instance.go) whose
 * constructors return a *Fault built from options. Both share one Fault
 * shape here; the tags of both generations form one enumeration.
 *
 * Go errors are modelled as the `Error` datatype. Whether a fault travels
 * as a pointer or as a value is kept, because the source's type tests tell
 * them apart: GetTag asserts `*Fault`, NewHTTPResponse asserts `Fault`.
 */
module Fault {
  import opened Wrappers

  // HTTP status codes of net/http used by the constructors.
  const StatusBadRequest: int := 400
  const StatusUnauthorized: int := 401
  const StatusForbidden: int := 403
  const StatusNotFound: int := 404
  const StatusConflict: int := 409
  const StatusUnprocessableEntity: int := 422
  const StatusTooManyRequests: int := 429
  const StatusInternalServerError: int := 500

  /**
   * Fault tags. `Empty` is Go's zero value "" of `Tag`. The string of each
   * tag is given by Name(); the ten tags of tag.go carry their strings from
   * there. Forbidden, TooManyRequests, ValidationError, Expired and CacheMiss
   * belong to the newer generation, whose tag file is not part of this
   * model: their strings here only need to be distinct from the others.
   */
  datatype Tag =
    | Empty
    | Untagged
    | BadRequest
    | NotFound
    | LockedUser
    | Unauthorized
    | DisabledUser
    | InternalServerError
    | UnprocessableEntity
    | ResourceTaken
    | Conflict
    | Forbidden
    | TooManyRequests
    | ValidationError
    | Expired
    | CacheMiss
  {
    function Name(): string {
      match this
      case Empty => ""
      case Untagged => "UNTAGGED"
      case BadRequest => "BAD_REQUEST"
      case NotFound => "RESOURCE_NOT_FOUND"
      case LockedUser => "LOCKED_USER"
      case Unauthorized => "UNAUTHORIZED"
      case DisabledUser => "DISABLED_USER"
      case InternalServerError => "INTERNAL_SERVER_ERROR"
      case UnprocessableEntity => "UNPROCESSABLE_ENTITY"
      case ResourceTaken => "RESOURCE_ALREADY_TAKEN"
      case Conflict => "CONFLICT"
      case Forbidden => "FORBIDDEN"
      case TooManyRequests => "TOO_MANY_REQUESTS"
      case ValidationError => "VALIDATION_ERROR"
      case Expired => "EXPIRED"
      case CacheMiss => "CACHE_MISS"
    }
  }

  /** A structured error: HTTP status, tag, message and an optional cause. */
  datatype Fault = Fault(httpCode: int, tag: Tag, message: string, cause: Option<Error>) {
    /** The HTTP status a response carrying this fault gets. */
    function StatusCode(): int {
      httpCode
    }
  }

  /** A Go `error` value, as far as the source inspects it. */
  datatype Error =
    | FaultPtr(fault: Fault)                               // a *Fault
    | FaultVal(fault: Fault)                               // a Fault held by value
    | Pq(code: string, pqMessage: string, detail: string)  // a *pq.Error from the Postgres driver
    | Wrapped(prefix: string, inner: Error)                // fmt.Errorf("<prefix>: %w", inner)
    | Plain(text: string)                                  // errors.New(text) or any other leaf error

  /** fault.New of the older generation: all four fields stored as given. */
  function New(httpCode: int, tag: Tag, msg: string, cause: Option<Error>): Fault {
    Fault(httpCode, tag, msg, cause)
  }

  /** Fault.Error(): "<tag>: <msg>", followed by " (caused by: <cause>)" when there is a cause. */
  function Text(f: Fault): string
    decreases f, 1
  {
    match f.cause
    case Some(c) => f.tag.Name() + ": " + f.message + " (caused by: " + ErrorText(c) + ")"
    case None => f.tag.Name() + ": " + f.message
  }

  /** The Error() string of any error. */
  function ErrorText(e: Error): string
    decreases e, 0
  {
    match e
    case FaultPtr(f) => Text(f)
    case FaultVal(f) => Text(f)
    case Pq(_, m, _) => "pq: " + m
    case Wrapped(p, inner) => p + ": " + ErrorText(inner)
    case Plain(t) => t
  }

  /**
   * errors.Unwrap: only an fmt.Errorf wrapper has an Unwrap method; a Fault
   * of either form does not, so its cause is not part of the chain.
   */
  function Unwrap(e: Error): (r: Option<Error>)
    ensures r.Some? ==> |Chain(r.value)| < |Chain(e)|
  {
    match e
    case Wrapped(_, inner) => Some(inner)
    case _ => None
  }

  /** The unwrap chain of an error, outermost first. */
  function Chain(e: Error): (c: seq<Error>)
    ensures |c| >= 1 && c[0] == e
  {
    match e
    case Wrapped(_, inner) => [e] + Chain(inner)
    case _ => [e]
  }

  /** What GetTag computes, stated over the chain. */
  function TagOf(err: Option<Error>): Tag
    decreases if err.Some? then |Chain(err.value)| else 0
  {
    match err
    case None => Untagged
    case Some(e) =>
      if e.FaultPtr? && e.fault.tag != Empty then e.fault.tag else TagOf(Unwrap(e))
  }

  /**
   * GetTag (tag.go): walk the unwrap chain and return the tag of the first
   * *Fault whose tag is not empty; UNTAGGED for nil or when there is none.
   */
  method GetTag(err: Option<Error>) returns (t: Tag)
    ensures t == TagOf(err)
  {
    if err.None? {
      return Untagged;
    }
    var cur := err;
    while cur.Some?
      invariant TagOf(cur) == TagOf(err)
      decreases if cur.Some? then |Chain(cur.value)| else 0
    {
      var e := cur.value;
      if e.FaultPtr? && e.fault.tag != Empty {
        return e.fault.tag;
      }
      cur := Unwrap(e);
    }
    return Untagged;
  }

  /** errors.As(err, &target) with a *Fault target: the first *Fault of the chain. */
  function AsFault(e: Error): Option<Fault> {
    match e
    case FaultPtr(f) => Some(f)
    case Wrapped(_, inner) => AsFault(inner)
    case _ => None
  }

  /** The newer generation's New(message) without options: UNTAGGED and 400. */
  function NewDefault(message: string, cause: Option<Error>): Error {
    FaultPtr(Fault(StatusBadRequest, Untagged, message, cause))
  }

  // The constructors of instance.go; each returns a *Fault.

  function NewValidation(message: string, cause: Option<Error>): Error {
    FaultPtr(Fault(StatusUnprocessableEntity, ValidationError, message, cause))
  }

  function NewBadRequest(message: string): Error {
    FaultPtr(Fault(StatusBadRequest, BadRequest, message, None))
  }

  function NewNotFound(message: string): Error {
    FaultPtr(Fault(StatusNotFound, NotFound, message, None))
  }

  function NewInternalServerError(message: string): Error {
    FaultPtr(Fault(StatusInternalServerError, InternalServerError, message, None))
  }

  function NewUnauthorized(message: string): Error {
    FaultPtr(Fault(StatusUnauthorized, Unauthorized, message, None))
  }

  function NewForbidden(message: string): Error {
    FaultPtr(Fault(StatusForbidden, Forbidden, message, None))
  }

  function NewConflict(message: string): Error {
    FaultPtr(Fault(StatusConflict, Conflict, message, None))
  }

  function NewTooManyRequests(message: string): Error {
    FaultPtr(Fault(StatusTooManyRequests, TooManyRequests, message, None))
  }

  function NewUnprocessableEntity(message: string): Error {
    FaultPtr(Fault(StatusUnprocessableEntity, UnprocessableEntity, message, None))
  }

  /** The message a response body carries for an error. */
  function MessageOf(e: Error): string {
    match AsFault(e)
    case Some(f) => f.message
    case None => ErrorText(e)
  }

  /**
   * The status NewHTTPError writes: the status of the first *Fault in the
   * chain, else 500. (Writing headers and the JSON body is left out.)
   */
  function HttpErrorStatus(err: Error): (code: int)
    ensures AsFault(err).None? ==> code == StatusInternalServerError
    ensures AsFault(err).Some? ==> code == AsFault(err).value.StatusCode()
  {
    match AsFault(err)
    case Some(f) => f.StatusCode()
    case None => StatusInternalServerError
  }

  /** The body NewHTTPError encodes for an error that holds no *Fault. */
  function HttpErrorBody(err: Error): (f: Fault)
    requires AsFault(err).None?
  {
    Fault(StatusInternalServerError, InternalServerError, "an unexpected error occurred", Some(err))
  }

  // ---------------------------------------------------------------------
  // Properties

  /** Status and tag that the constructors of instance.go pair with each message. */
  lemma ConstructorTable(m: string, cause: Option<Error>)
    ensures TagOf(Some(NewValidation(m, cause))) == ValidationError
    ensures HttpErrorStatus(NewValidation(m, cause)) == 422
    ensures TagOf(Some(NewBadRequest(m))) == BadRequest && HttpErrorStatus(NewBadRequest(m)) == 400
    ensures TagOf(Some(NewNotFound(m))) == NotFound && HttpErrorStatus(NewNotFound(m)) == 404
    ensures TagOf(Some(NewInternalServerError(m))) == InternalServerError
    ensures HttpErrorStatus(NewInternalServerError(m)) == 500
    ensures TagOf(Some(NewUnauthorized(m))) == Unauthorized && HttpErrorStatus(NewUnauthorized(m)) == 401
    ensures TagOf(Some(NewForbidden(m))) == Forbidden && HttpErrorStatus(NewForbidden(m)) == 403
    ensures TagOf(Some(NewConflict(m))) == Conflict && HttpErrorStatus(NewConflict(m)) == 409
    ensures TagOf(Some(NewTooManyRequests(m))) == TooManyRequests
    ensures HttpErrorStatus(NewTooManyRequests(m)) == 429
    ensures TagOf(Some(NewUnprocessableEntity(m))) == UnprocessableEntity
    ensures HttpErrorStatus(NewUnprocessableEntity(m)) == 422
    ensures MessageOf(NewValidation(m, cause)) == m && MessageOf(NewBadRequest(m)) == m
    ensures MessageOf(NewNotFound(m)) == m && MessageOf(NewInternalServerError(m)) == m
    ensures MessageOf(NewUnauthorized(m)) == m && MessageOf(NewForbidden(m)) == m
    ensures MessageOf(NewConflict(m)) == m && MessageOf(NewTooManyRequests(m)) == m
    ensures MessageOf(NewUnprocessableEntity(m)) == m
  {
  }

  /** fault.New keeps all four fields: they come back through StatusCode, GetTag, Error(). */
  lemma NewKeepsFields(code: int, t: Tag, msg: string, cause: Option<Error>)
    ensures New(code, t, msg, cause).StatusCode() == code
    ensures t != Empty ==> TagOf(Some(FaultPtr(New(code, t, msg, cause)))) == t
    ensures cause.None? ==> Text(New(code, t, msg, cause)) == t.Name() + ": " + msg
    ensures cause.Some? ==>
      Text(New(code, t, msg, cause)) == t.Name() + ": " + msg + " (caused by: " + ErrorText(cause.value) + ")"
  {
  }

  /** Wrapping an error with fmt.Errorf("...: %w") any number of times keeps its tag. */
  function WrapAll(prefixes: seq<string>, e: Error): Error {
    if prefixes == [] then e else Wrapped(prefixes[0], WrapAll(prefixes[1..], e))
  }

  lemma {:induction false} WrappingKeepsTag(prefixes: seq<string>, e: Error)
    ensures TagOf(Some(WrapAll(prefixes, e))) == TagOf(Some(e))
    ensures AsFault(WrapAll(prefixes, e)) == AsFault(e)
  {
    if prefixes != [] {
      WrappingKeepsTag(prefixes[1..], e);
    }
  }

  /** A *Fault with a non-empty tag: what GetTag stops at. */
  predicate Tagged(e: Error) {
    e.FaultPtr? && e.fault.tag != Empty
  }

  /** The tag of the first tagged *Fault of a chain, UNTAGGED when there is none. */
  function FirstTagged(chain: seq<Error>): Tag {
    if chain == [] then Untagged
    else if Tagged(chain[0]) then chain[0].fault.tag
    else FirstTagged(chain[1..])
  }

  /** GetTag returns the tag of the outermost tagged *Fault in the unwrap chain. */
  lemma {:induction false} TagIsFirstTaggedInChain(e: Error)
    ensures TagOf(Some(e)) == FirstTagged(Chain(e))
  {
    match e
    case Wrapped(_, inner) =>
      TagIsFirstTaggedInChain(inner);
      assert Chain(e)[1..] == Chain(inner);
    case _ =>
  }

  /**
   * FirstTagged picks position i exactly when chain[i] is tagged and no
   * earlier entry is; with no tagged entry it is UNTAGGED.
   */
  lemma {:induction false} FirstTaggedAt(chain: seq<Error>, i: nat)
    requires i < |chain| && Tagged(chain[i])
    requires forall j :: 0 <= j < i ==> !Tagged(chain[j])
    ensures FirstTagged(chain) == chain[i].fault.tag
  {
    if i > 0 {
      FirstTaggedAt(chain[1..], i - 1);
    }
  }

  lemma {:induction false} FirstTaggedNone(chain: seq<Error>)
    requires forall j :: 0 <= j < |chain| ==> !Tagged(chain[j])
    ensures FirstTagged(chain) == Untagged
  {
    if chain != [] {
      FirstTaggedNone(chain[1..]);
    }
  }

  /**
   * A fault held by value, or flattened into a string by errors.New, is
   * invisible to GetTag: the chain yields UNTAGGED.
   */
  lemma TagLostByValueOrFlattening(f: Fault, prefixes: seq<string>)
    ensures TagOf(Some(WrapAll(prefixes, FaultVal(f)))) == Untagged
    ensures TagOf(Some(Plain(ErrorText(FaultPtr(f))))) == Untagged
    ensures TagOf(Some(FaultPtr(f.(tag := Empty)))) == Untagged
  {
    WrappingKeepsTag(prefixes, FaultVal(f));
  }

  // Error() begins with the tag's name followed by ": ", and no name holds
  // a colon, so the tag can be read back from the text.

  /** The characters of `s` before its first ':' (all of `s` when there is none). */
  function BeforeColon(s: string): (r: string)
    ensures |r| <= |s|
  {
    if s == [] || s[0] == ':' then [] else [s[0]] + BeforeColon(s[1..])
  }

  /** The tag whose name is `s`, if any. */
  function TagNamed(s: string): Option<Tag> {
    if s == "" then Some(Empty)
    else if s == "UNTAGGED" then Some(Untagged)
    else if s == "BAD_REQUEST" then Some(BadRequest)
    else if s == "RESOURCE_NOT_FOUND" then Some(NotFound)
    else if s == "LOCKED_USER" then Some(LockedUser)
    else if s == "UNAUTHORIZED" then Some(Unauthorized)
    else if s == "DISABLED_USER" then Some(DisabledUser)
    else if s == "INTERNAL_SERVER_ERROR" then Some(InternalServerError)
    else if s == "UNPROCESSABLE_ENTITY" then Some(UnprocessableEntity)
    else if s == "RESOURCE_ALREADY_TAKEN" then Some(ResourceTaken)
    else if s == "CONFLICT" then Some(Conflict)
    else if s == "FORBIDDEN" then Some(Forbidden)
    else if s == "TOO_MANY_REQUESTS" then Some(TooManyRequests)
    else if s == "VALIDATION_ERROR" then Some(ValidationError)
    else if s == "EXPIRED" then Some(Expired)
    else if s == "CACHE_MISS" then Some(CacheMiss)
    else None
  }

  lemma {:induction false} BeforeColonOfPrefix(name: string, rest: string)
    requires ':' !in name
    ensures BeforeColon(name + ":" + rest) == name
  {
    if name != [] {
      assert (name + ":" + rest)[1..] == name[1..] + ":" + rest;
      BeforeColonOfPrefix(name[1..], rest);
    }
  }

  // The names are checked four tags at a time, which keeps each proof small.

  lemma NamesRoundTrip1(t: Tag)
    requires t.Empty? || t.Untagged? || t.BadRequest? || t.NotFound?
    ensures TagNamed(t.Name()) == Some(t)
  {
  }

  lemma NamesRoundTrip2(t: Tag)
    requires t.LockedUser? || t.Unauthorized? || t.DisabledUser? || t.InternalServerError?
    ensures TagNamed(t.Name()) == Some(t)
  {
  }

  lemma NamesRoundTrip3(t: Tag)
    requires t.UnprocessableEntity? || t.ResourceTaken? || t.Conflict? || t.Forbidden?
    ensures TagNamed(t.Name()) == Some(t)
  {
  }

  lemma NamesRoundTrip4(t: Tag)
    requires t.TooManyRequests? || t.ValidationError? || t.Expired? || t.CacheMiss?
    ensures TagNamed(t.Name()) == Some(t)
  {
  }

  /** Tag names are pairwise distinct: each name maps back to its own tag. */
  lemma NameRoundTrip(t: Tag)
    ensures TagNamed(t.Name()) == Some(t)
  {
    if t.Empty? || t.Untagged? || t.BadRequest? || t.NotFound? {
      NamesRoundTrip1(t);
    } else if t.LockedUser? || t.Unauthorized? || t.DisabledUser? || t.InternalServerError? {
      NamesRoundTrip2(t);
    } else if t.UnprocessableEntity? || t.ResourceTaken? || t.Conflict? || t.Forbidden? {
      NamesRoundTrip3(t);
    } else {
      NamesRoundTrip4(t);
    }
  }

  lemma NamesHaveNoColon1(t: Tag)
    requires t.Empty? || t.Untagged? || t.BadRequest? || t.NotFound?
    ensures ':' !in t.Name()
  {
  }

  lemma NamesHaveNoColon2(t: Tag)
    requires t.LockedUser? || t.Unauthorized? || t.DisabledUser? || t.InternalServerError?
    ensures ':' !in t.Name()
  {
  }

  lemma NamesHaveNoColon3(t: Tag)
    requires t.UnprocessableEntity? || t.ResourceTaken? || t.Conflict? || t.Forbidden?
    ensures ':' !in t.Name()
  {
  }

  lemma NamesHaveNoColon4(t: Tag)
    requires t.TooManyRequests? || t.ValidationError? || t.Expired? || t.CacheMiss?
    ensures ':' !in t.Name()
  {
  }

  /** No tag name contains a colon. */
  lemma NameHasNoColon(t: Tag)
    ensures ':' !in t.Name()
  {
    if t.Empty? || t.Untagged? || t.BadRequest? || t.NotFound? {
      NamesHaveNoColon1(t);
    } else if t.LockedUser? || t.Unauthorized? || t.DisabledUser? || t.InternalServerError? {
      NamesHaveNoColon2(t);
    } else if t.UnprocessableEntity? || t.ResourceTaken? || t.Conflict? || t.Forbidden? {
      NamesHaveNoColon3(t);
    } else {
      NamesHaveNoColon4(t);
    }
  }

  /** The tag of a fault can be read back from its Error() text. */
  lemma TagReadBack(f: Fault)
    ensures TagNamed(BeforeColon(Text(f))) == Some(f.tag)
  {
    NameRoundTrip(f.tag);
    NameHasNoColon(f.tag);
    var rest := if f.cause.Some?
      then " " + f.message + " (caused by: " + ErrorText(f.cause.value) + ")"
      else " " + f.message;
    assert Text(f) == f.tag.Name() + ":" + rest;
    BeforeColonOfPrefix(f.tag.Name(), rest);
  }
}
