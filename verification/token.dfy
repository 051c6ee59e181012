/**
 * Access and refresh tokens (internal/infra/http/token/token.go and
 * pkg/token/claims.go). The HS256 signing of RFC 7519 is not modelled: a
 * signed token is represented by the claims it carries, the user and the
 * instant it expires.
 */
module Token {
  import opened Wrappers
  import opened Fault
  import opened Utf8

  /** chacha20poly1305.KeySize: the secret must be exactly this many bytes long. */
  const KeySize: nat := 32

  /** The secret-key check: len(secretKey), a byte count, equals KeySize. */
  predicate SecretOk(secret: string) {
    Utf8Length(secret) == KeySize
  }

  datatype Claims = Claims(userID: string, expiresAt: int)

  /** Gen: a token for the user valid for `duration` from now, or the secret-length error. */
  function Gen(secret: string, userID: string, duration: int, now: int): (r: Result<Claims, Error>)
    ensures r.Failure? <==> !SecretOk(secret)
    ensures r.Failure? ==> r.error == Plain("invalid secret key")
    ensures r.Success? ==> r.value.userID == userID && r.value.expiresAt - now == duration
  {
    if !SecretOk(secret) then Failure(Plain("invalid secret key"))
    else Success(Claims(userID, now + duration))
  }

  /** Claims.Valid: a token read after its expiry instant is refused. */
  function Valid(c: Claims, now: int): (r: Option<Error>)
    ensures r.Some? <==> now > c.expiresAt
    ensures r.Some? ==> r.value == Plain("token has expired")
  {
    if now > c.expiresAt then Some(Plain("token has expired")) else None
  }

  /** A freshly generated token is valid up to and including its last instant, and expired after it. */
  lemma FreshTokenLifetime(secret: string, userID: string, duration: int, now: int, later: int)
    requires SecretOk(secret) && duration >= 0
    ensures Gen(secret, userID, duration, now).Success?
    ensures now <= later <= now + duration ==> Valid(Gen(secret, userID, duration, now).value, later).None?
    ensures later > now + duration ==> Valid(Gen(secret, userID, duration, now).value, later).Some?
  {
  }

  /**
   * The key length is measured in bytes: 32 ASCII characters pass, while
   * 16 two-byte characters pass and 32 of them do not.
   */
  lemma SecretLengthInBytes(ascii: string, wide: string)
    requires |ascii| == 32 && forall i :: 0 <= i < |ascii| ==> ascii[i] as int < 0x80
    requires forall i :: 0 <= i < |wide| ==> wide[i] == 'é'
    ensures SecretOk(ascii)
    ensures SecretOk(wide) <==> |wide| == 16
  {
    AsciiLength(ascii);
    TwoByteRun(wide, 'é');
  }
}
