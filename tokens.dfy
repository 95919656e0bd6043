/**
 * What the three token factories share: the claims a token carries, the signing library
 * seen from outside, the `HTTPException` details they raise and the `Bearer` prefix.
 * Times are whole seconds since the epoch; settings count in minutes.
 */
module Tokens {
  import opened Wrappers
  import opened Text

  /** A signed token, opaque to everything but the codec. */
  type Token = string

  /** The payload `{"sub", "iat", "exp"}`; `sub` may be JSON `null`. */
  datatype Claims = Claims(sub: Option<string>, iat: int, exp: int)

  /**
   * `jose.jwt` with the configured key and algorithm: `encode` always signs, `decode`
   * answers `None` for a token whose signature or format it rejects (`JWTError`).
   */
  datatype Codec = Codec(encode: Claims -> Token, decode: Token -> Option<Claims>)

  /**
   * `jwt.decode`'s subject check: a payload whose `sub` is not a string raises
   * `JWTClaimsError`, a `JWTError`, so nothing decodes to a `null` subject.
   */
  ghost predicate ChecksSubject(c: Codec) {
    forall t: Token :: c.decode(t).Some? ==> c.decode(t).value.sub.Some?
  }

  /**
   * A codec that behaves as `jose` does: it checks the subject and reads back every payload
   * it signed, except one with a `null` subject, which it refuses.
   */
  ghost predicate RoundTrips(c: Codec) {
    && ChecksSubject(c)
    && forall claims: Claims :: c.decode(c.encode(claims)) == (if claims.sub.Some? then Some(claims) else None)
  }

  const SecondsPerMinute: int := 60

  /** The `HTTPException`s (all 401) and the `NotImplementedError` the factories raise. */
  datatype AuthError =
    | InvalidToken      // "Not authorized: Invalid token."
    | TokenExpired      // "Not authorized: Token expired."
    | BadToken          // "Not authorized: Bad token."
    | BadCredentials    // "Not authorized: Bad credentials."
    | UserBlocked       // "Not authorized: User is blocked."
    | UserNotActive     // "Not authorized: User is not active."
    | UserNotVerified   // "Not authorized: User is not verified."
    | InvalidRecord     // pydantic's ValidationError when a stored user fails a schema validator
    | NotImplemented    // NotImplementedError of the cache store
    | Unmapped          // SQLAlchemy's UnmappedInstanceError: `Session.add` of an object that is not ORM-mapped

  /** `token.startswith(scheme + " ")` followed by `token.split(" ")[1]`. */
  function StripScheme(token: string, scheme: string): (r: string)
    requires ' ' !in scheme
    ensures !StartsWith(token, scheme + " ") ==> r == token
  {
    if StartsWith(token, scheme + " ") then
      assert token[|scheme|] == (scheme + " ")[|scheme|];
      SecondField(token)
    else token
  }

  /** A bare token (no space) sent as `"Bearer <token>"` comes out as the token itself. */
  lemma StripBearerOfHeader(t: string)
    requires ' ' !in t
    ensures StripScheme("Bearer " + t, "Bearer") == t
    ensures StripScheme("bearer " + t, "bearer") == t
  {
    assert "Bearer " + t == "Bearer" + " " + t;
    assert StartsWith("Bearer " + t, "Bearer" + " ");
    SecondFieldAfterScheme("Bearer", t);
    assert "bearer " + t == "bearer" + " " + t;
    assert StartsWith("bearer " + t, "bearer" + " ");
    SecondFieldAfterScheme("bearer", t);
    FirstFieldOfSpaceless(t);
  }

  /** A token with a scheme prefix holds a space, so a bare token has no scheme prefix. */
  lemma SchemeNeedsSpace(token: string, scheme: string)
    ensures StartsWith(token, scheme + " ") ==> ' ' in token
  {
    if StartsWith(token, scheme + " ") {
      assert token[|scheme|] == (scheme + " ")[|scheme|];
    }
  }

  /** The smaller of two instants, as `min` on datetimes. */
  function Min(a: int, b: int): (m: int)
    ensures m <= a && m <= b && (m == a || m == b)
  {
    if a <= b then a else b
  }
}
