/**
 * The earliest `JWTFactory` and `authenticate`: settings come from `SettingsAuth`, and the
 * revocation list holds raw token strings, with only the memory store implemented.
 */
module AuthUtils {
  import opened Wrappers
  import opened Text
  import opened Tokens
  import opened AuthSettings
  import opened UserRecords
  import JwtUtils

  /** `settings.auth.jwt_bad_store == "memory"`. */
  predicate InMemory(s: SettingsAuth) {
    s.jwtBadStore == "memory"
  }

  /** `create(email)`: subject `email`, issued now, expiring `jwt_expiration` minutes later. */
  function Create(s: SettingsAuth, codec: Codec, email: string, now: int): (t: Token)
    ensures RoundTrips(codec) ==> codec.decode(t) == Some(Claims(Some(email), now, now + 60 * s.jwtExpiration))
  {
    codec.encode(Claims(Some(email), now, now + SecondsPerMinute * s.jwtExpiration))
  }

  /** What `verify` accepts, stated without its order of checks. */
  predicate Accepts(s: SettingsAuth, codec: Codec, badTokens: seq<Token>, token: Token, now: int) {
    match codec.decode(token)
    case None => false
    case Some(c) => now <= c.exp && c.iat <= now && c.sub.Some? && InMemory(s) && token !in badTokens
  }

  /**
   * `verify`: decode, then expiry, then issue in the future, then a missing subject, then the
   * raw token looked up in `bad_tokens`; a store other than memory is not implemented.
   */
  function Verify(s: SettingsAuth, codec: Codec, badTokens: seq<Token>, token: Token, now: int)
    : (r: Result<string, AuthError>)
    ensures r.Success? <==> Accepts(s, codec, badTokens, token, now)
    ensures r.Success? ==> codec.decode(token).value.sub == Some(r.value)
    ensures codec.decode(token).None? ==> r == Failure(InvalidToken)
    ensures codec.decode(token).Some? && codec.decode(token).value.exp < now ==> r == Failure(TokenExpired)
    ensures codec.decode(token).Some? && now <= codec.decode(token).value.exp
            && (codec.decode(token).value.iat > now || codec.decode(token).value.sub.None?)
            ==> r == Failure(InvalidToken)
    ensures codec.decode(token).Some? && now <= codec.decode(token).value.exp
            && codec.decode(token).value.iat <= now && codec.decode(token).value.sub.Some?
            ==> r == (if !InMemory(s) then Failure(NotImplemented)
                      else if token in badTokens then Failure(InvalidToken)
                      else Success(codec.decode(token).value.sub.value))
  {
    match codec.decode(token)
    case None => Failure(InvalidToken)
    case Some(data) =>
      if data.exp < now then Failure(TokenExpired)
      else if data.iat > now then Failure(InvalidToken)
      else if data.sub.None? then Failure(InvalidToken)
      else if InMemory(s) then
        if token in badTokens then Failure(InvalidToken) else Success(data.sub.value)
      else Failure(NotImplemented)
  }

  /** A created token verifies from its issue to its expiry and is "Token expired" afterwards, unless listed. */
  lemma CreatedTokenLifetime(s: SettingsAuth, codec: Codec, badTokens: seq<Token>, email: string, now: int, at: int)
    requires RoundTrips(codec) && InMemory(s) && now <= at
    requires Create(s, codec, email, now) !in badTokens
    ensures at <= now + 60 * s.jwtExpiration ==> Verify(s, codec, badTokens, Create(s, codec, email, now), at) == Success(email)
    ensures at > now + 60 * s.jwtExpiration ==> Verify(s, codec, badTokens, Create(s, codec, email, now), at) == Failure(TokenExpired)
  {
  }

  /** `revoke`: the token after a "Bearer " prefix, appended as it is; no decoding, no duplicate check. */
  function RevokeStep(s: SettingsAuth, badTokens: seq<Token>, token: string): (r: (Result<(), AuthError>, seq<Token>))
    ensures r.0.Success? <==> InMemory(s)
    ensures r.0.Failure? ==> r == (Failure(NotImplemented), badTokens)
    ensures r.0.Success? ==> && |r.1| == |badTokens| + 1
                             && r.1[..|badTokens|] == badTokens
                             && r.1[|badTokens|] == StripScheme(token, "Bearer")
  {
    var t := StripScheme(token, "Bearer");
    if InMemory(s) then (Success(()), badTokens + [t]) else (Failure(NotImplemented), badTokens)
  }

  /** Revoking the same token twice succeeds both times and lists it twice more. */
  lemma {:induction false} RevokeTwiceListsTwice(s: SettingsAuth, badTokens: seq<Token>, token: string)
    requires InMemory(s)
    ensures var once := RevokeStep(s, badTokens, token);
            var twice := RevokeStep(s, once.1, token);
            && once.0.Success? && twice.0.Success?
            && multiset(twice.1)[StripScheme(token, "Bearer")]
               == multiset(badTokens)[StripScheme(token, "Bearer")] + 2
  {
    var t := StripScheme(token, "Bearer");
    var once := RevokeStep(s, badTokens, token).1;
    assert once == badTokens + [t];
    assert RevokeStep(s, once, token).1 == badTokens + [t] + [t];
  }

  /** After a revocation, the token that was listed never verifies again. */
  lemma {:induction false} RevokedTokenRejected(s: SettingsAuth, codec: Codec, badTokens: seq<Token>,
                                                token: string, now: int)
    requires InMemory(s)
    ensures var after := RevokeStep(s, badTokens, token).1;
            var t := StripScheme(token, "Bearer");
            && Verify(s, codec, after, t, now).Failure?
            && (codec.decode(t).Some? && codec.decode(t).value.exp >= now ==> Verify(s, codec, after, t, now) == Failure(InvalidToken))
  {
    var after := RevokeStep(s, badTokens, token).1;
    assert after[|badTokens|] == StripScheme(token, "Bearer");
  }

  /** A store other than memory: nothing verifies and nothing is revoked. */
  lemma NonMemoryStoreUnimplemented(s: SettingsAuth, codec: Codec, badTokens: seq<Token>, token: string, now: int)
    requires !InMemory(s)
    ensures Verify(s, codec, badTokens, token, now).Failure?
    ensures RevokeStep(s, badTokens, token) == (Failure(NotImplemented), badTokens)
    ensures codec.decode(token).Some? && now <= codec.decode(token).value.exp
            && codec.decode(token).value.iat <= now && codec.decode(token).value.sub.Some?
            ==> Verify(s, codec, badTokens, token, now) == Failure(NotImplemented)
  {
  }

  /**
   * The user lookup of `authenticate`: the first row with the email ("Bad credentials" when
   * there is none), rebuilt as `UserOut`, refused when blocked; activity and verification are
   * not looked at.
   */
  function UserForSubject(rows: seq<User>, email: string): (r: Result<User, AuthError>)
    ensures Find(rows, EmailColumn, email).None? ==> r == Failure(BadCredentials)
    ensures Find(rows, EmailColumn, email).Some? ==>
              var u := rows[Find(rows, EmailColumn, email).value];
              && (Normalised(u).Failure? ==> r == Failure(InvalidRecord))
              && (Normalised(u).Success? && u.blocked ==> r == Failure(UserBlocked))
              && (r.Success? <==> Normalised(u).Success? && !u.blocked)
              && (r.Success? ==> r.value == Normalised(u).value)
    ensures r.Success? ==> r.value.email == email && !r.value.blocked
  {
    match Find(rows, EmailColumn, email)
    case None => Failure(BadCredentials)
    case Some(j) =>
      match Normalised(rows[j])
      case Failure(e) => Failure(e)
      case Success(u) => if u.blocked then Failure(UserBlocked) else Success(u)
  }

  /**
   * The lookup accepts what the current `validate` accepts, with the same user, and also the
   * inactive and the unverified accounts `validate` refuses.
   */
  lemma StatusChecksAddedLater(rows: seq<User>, email: string)
    ensures JwtUtils.Validate(rows, email).Success? ==> UserForSubject(rows, email) == JwtUtils.Validate(rows, email)
    ensures UserForSubject(rows, email).Success? ==>
              (JwtUtils.Validate(rows, email).Success?
               <==> UserForSubject(rows, email).value.active && UserForSubject(rows, email).value.verified)
  {
  }

  /** `authenticate(token)`: the subject `verify` returns, then the user it names. */
  function Authenticate(s: SettingsAuth, codec: Codec, badTokens: seq<Token>, rows: seq<User>, token: Token, now: int)
    : (r: Result<User, AuthError>)
    ensures Verify(s, codec, badTokens, token, now).Failure? ==> r == Failure(Verify(s, codec, badTokens, token, now).error)
    ensures r.Success? <==> Accepts(s, codec, badTokens, token, now)
                            && UserForSubject(rows, codec.decode(token).value.sub.value).Success?
    ensures r.Success? ==> Some(r.value.email) == codec.decode(token).value.sub && !r.value.blocked
  {
    match Verify(s, codec, badTokens, token, now)
    case Failure(e) => Failure(e)
    case Success(email) => UserForSubject(rows, email)
  }

  /** A token revoked in this revision no longer authenticates anybody. */
  lemma RevokedTokenLocksOut(s: SettingsAuth, codec: Codec, badTokens: seq<Token>, rows: seq<User>,
                             token: string, now: int)
    requires InMemory(s)
    ensures var t := StripScheme(token, "Bearer");
            Authenticate(s, codec, RevokeStep(s, badTokens, token).1, rows, t, now).Failure?
  {
    RevokedTokenRejected(s, codec, badTokens, token, now);
  }

  /** The module-level `bad_tokens` list of raw token strings. */
  class BadTokenList {
    var badTokens: seq<Token>

    constructor ()
      ensures badTokens == []
    {
      badTokens := [];
    }

    /** `revoke`, appending in place; its outcome and new list are those of `RevokeStep`. */
    method Revoke(s: SettingsAuth, token: string) returns (r: Result<(), AuthError>)
      modifies this
      ensures (r, badTokens) == RevokeStep(s, old(badTokens), token)
    {
      var t := token;
      if StartsWith(t, "Bearer ") {
        assert t[|"Bearer"|] == ' ';
        t := SecondField(t);
      }
      assert t == StripScheme(token, "Bearer");
      if InMemory(s) {
        badTokens := badTokens + [t];
      } else {
        return Failure(NotImplemented);
      }
      return Success(());
    }
  }
}
