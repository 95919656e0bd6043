/**
 * The current `JWTFactory`: issuing, checking, revoking and renewing tokens against the
 * revocation store chosen by `jwt_revokes_store`.
 */
module JwtModel {
  import opened Wrappers
  import opened Text
  import opened Tokens
  import opened JwtSettings

  /** A row of the revocation list: the token and the expiry read from it. */
  datatype RevokedToken = RevokedToken(token: Token, expiration: int)

  /**
   * Both stores: the module-level `bad_tokens` list (memory) and the `RevokedTokenORM`
   * table (database), keyed by token.
   */
  datatype Revocations = Revocations(badTokens: seq<RevokedToken>, table: map<Token, int>)

  const Empty: Revocations := Revocations([], map[])

  /** `parce`: the decoded claims, or "Invalid token" when the codec rejects the token. */
  function Parse(codec: Codec, token: Token): (r: Result<Claims, AuthError>)
    ensures r.Success? <==> codec.decode(token).Some?
    ensures r.Success? ==> Some(r.value) == codec.decode(token)
    ensures r.Failure? ==> r.error == InvalidToken
  {
    match codec.decode(token)
    case None => Failure(InvalidToken)
    case Some(data) => Success(data)
  }

  /** Whether the store already holds the token: the list compares token and expiry, the table the token only. */
  predicate IsRevoked(store: StoreKind, rev: Revocations, token: Token, exp: int) {
    match store
    case Memory => RevokedToken(token, exp) in rev.badTokens
    case Database => token in rev.table
    case Cache => false
  }

  /** `check_revoked`: "Invalid token" for an undecodable or revoked token; the cache store is not implemented. */
  function CheckRevoked(s: JWTSettings, codec: Codec, rev: Revocations, token: Token): (r: Result<bool, AuthError>)
    ensures r.Success? ==> r.value
    ensures r.Success? <==> codec.decode(token).Some? && s.revokesStore != Cache
                            && !IsRevoked(s.revokesStore, rev, token, codec.decode(token).value.exp)
    ensures codec.decode(token).None? ==> r == Failure(InvalidToken)
    ensures codec.decode(token).Some? && s.revokesStore == Cache ==> r == Failure(NotImplemented)
    ensures codec.decode(token).Some? && IsRevoked(s.revokesStore, rev, token, codec.decode(token).value.exp)
            ==> r == Failure(InvalidToken)
  {
    match Parse(codec, token)
    case Failure(e) => Failure(e)
    case Success(data) =>
      if s.revokesStore == Memory && RevokedToken(token, data.exp) in rev.badTokens then Failure(InvalidToken)
      else if s.revokesStore == Database && token in rev.table then Failure(InvalidToken)
      else if s.revokesStore == Cache then Failure(NotImplemented)
      else Success(true)
  }

  /** The payload `create` signs. */
  function Issued(s: JWTSettings, email: string, now: int): Claims {
    Claims(Some(email), now, now + SecondsPerMinute * s.expirationInitial)
  }

  /** `create(email)`: subject `email`, issued now, expiring `jwt_expiration_initial` minutes later. */
  function Create(s: JWTSettings, codec: Codec, email: string, now: int): (t: Token)
    ensures RoundTrips(codec) ==> codec.decode(t) == Some(Claims(Some(email), now, now + 60 * s.expirationInitial))
  {
    codec.encode(Issued(s, email, now))
  }

  /** What `verify` accepts, stated without its order of checks. */
  predicate Accepts(s: JWTSettings, codec: Codec, rev: Revocations, token: Token, now: int) {
    match codec.decode(token)
    case None => false
    case Some(c) =>
      now <= c.exp && c.iat <= now && c.sub.Some? && s.revokesStore != Cache
      && !IsRevoked(s.revokesStore, rev, token, c.exp)
  }

  /**
   * `verify`: decode, then expiry (a token expiring at `now` still passes), then issue in the
   * future, then a missing subject, then revocation; the first failing check decides.
   */
  function Verify(s: JWTSettings, codec: Codec, rev: Revocations, token: Token, now: int): (r: Result<string, AuthError>)
    ensures r.Success? <==> Accepts(s, codec, rev, token, now)
    ensures r.Success? ==> codec.decode(token).value.sub == Some(r.value)
    ensures codec.decode(token).None? ==> r == Failure(InvalidToken)
    ensures codec.decode(token).Some? && codec.decode(token).value.exp < now ==> r == Failure(TokenExpired)
    ensures codec.decode(token).Some? && now <= codec.decode(token).value.exp
            && (codec.decode(token).value.iat > now || codec.decode(token).value.sub.None?)
            ==> r == Failure(InvalidToken)
    ensures codec.decode(token).Some? && now <= codec.decode(token).value.exp
            && codec.decode(token).value.iat <= now && codec.decode(token).value.sub.Some?
            ==> r == (match CheckRevoked(s, codec, rev, token)
                      case Failure(e) => Failure(e)
                      case Success(_) => Success(codec.decode(token).value.sub.value))
  {
    match Parse(codec, token)
    case Failure(e) => Failure(e)
    case Success(data) =>
      if data.exp < now then Failure(TokenExpired)
      else if data.iat > now then Failure(InvalidToken)
      else if data.sub.None? then Failure(InvalidToken)
      else
        match CheckRevoked(s, codec, rev, token)
        case Failure(e) => Failure(e)
        case Success(_) => Success(data.sub.value)
  }

  /**
   * A created token verifies, with its subject, from the moment it is issued to the moment it
   * expires, and is "Token expired" afterwards, as long as it is not in the store.
   */
  lemma CreatedTokenLifetime(s: JWTSettings, codec: Codec, rev: Revocations, email: string, now: int, at: int)
    requires RoundTrips(codec) && s.revokesStore != Cache && now <= at
    requires !IsRevoked(s.revokesStore, rev, Create(s, codec, email, now), now + 60 * s.expirationInitial)
    ensures at <= now + 60 * s.expirationInitial ==> Verify(s, codec, rev, Create(s, codec, email, now), at) == Success(email)
    ensures at > now + 60 * s.expirationInitial ==> Verify(s, codec, rev, Create(s, codec, email, now), at) == Failure(TokenExpired)
  {
  }

  /** A token presented before its issue time is "Invalid token" even though it has not expired. */
  lemma FutureTokenRejected(s: JWTSettings, codec: Codec, rev: Revocations, email: string, issued: int, now: int)
    requires RoundTrips(codec) && now < issued && 1 <= s.expirationInitial
    ensures Verify(s, codec, rev, Create(s, codec, email, issued), now) == Failure(InvalidToken)
  {
  }

  /** `"Bearer <token>"` as sent in the `Authorization` header: only the token is kept. */
  function StripBearer(token: string): string {
    StripScheme(token, "Bearer")
  }

  /**
   * `revoke` as written: strip a "Bearer " prefix, decode, refuse a token already revoked, then
   * record it. In the database branch the object handed to `Session.add` is the pydantic
   * `RevokedToken`, which SQLAlchemy cannot map: `add` raises `UnmappedInstanceError`, nothing
   * is committed, and only a token that already has a row (which `check_revoked` has refused)
   * would skip the `add`.
   */
  function RevokeAsWritten(s: JWTSettings, codec: Codec, rev: Revocations, token: string)
    : (r: (Result<bool, AuthError>, Revocations))
    ensures r.0.Success? <==> CheckRevoked(s, codec, rev, StripBearer(token)).Success? && s.revokesStore == Memory
    ensures r.0.Success? ==> r.0.value
    ensures r.0.Failure? ==> r.1 == rev
    ensures CheckRevoked(s, codec, rev, StripBearer(token)).Failure?
            ==> r.0 == Failure(CheckRevoked(s, codec, rev, StripBearer(token)).error)
    ensures CheckRevoked(s, codec, rev, StripBearer(token)).Success? && s.revokesStore == Database
            ==> r == (Failure(Unmapped), rev)
    ensures r.0.Success?
            ==> r.1 == rev.(badTokens := rev.badTokens
                                        + [RevokedToken(StripBearer(token), codec.decode(StripBearer(token)).value.exp)])
  {
    var t := StripBearer(token);
    match Parse(codec, t)
    case Failure(e) => (Failure(e), rev)
    case Success(data) =>
      match CheckRevoked(s, codec, rev, t)
      case Failure(e) => (Failure(e), rev)
      case Success(_) =>
        match s.revokesStore
        case Memory => (Success(true), rev.(badTokens := rev.badTokens + [RevokedToken(t, data.exp)]))
        case Database => if t in rev.table then (Success(true), rev) else (Failure(Unmapped), rev)
        case Cache => (Failure(NotImplemented), rev)
  }

  /**
   * `revoke` as intended: the database branch adds a `RevokedTokenORM` row, as the intermediate
   * revision does; otherwise as written. The table gets a row only when none exists for the token.
   */
  function RevokeStep(s: JWTSettings, codec: Codec, rev: Revocations, token: string): (r: (Result<bool, AuthError>, Revocations))
    ensures r.0.Success? <==> CheckRevoked(s, codec, rev, StripBearer(token)).Success?
    ensures r.0.Success? ==> r.0.value
    ensures r.0.Failure? ==> r.1 == rev
    ensures r.0.Failure? ==> r.0 == Failure(CheckRevoked(s, codec, rev, StripBearer(token)).error)
    ensures r.0.Success? && s.revokesStore == Memory
            ==> r.1 == rev.(badTokens := rev.badTokens
                                        + [RevokedToken(StripBearer(token), codec.decode(StripBearer(token)).value.exp)])
    ensures r.0.Success? && s.revokesStore == Database
            ==> r.1 == rev.(table := rev.table[StripBearer(token) := codec.decode(StripBearer(token)).value.exp])
  {
    var t := StripBearer(token);
    match Parse(codec, t)
    case Failure(e) => (Failure(e), rev)
    case Success(data) =>
      match CheckRevoked(s, codec, rev, t)
      case Failure(e) => (Failure(e), rev)
      case Success(_) =>
        match s.revokesStore
        case Memory => (Success(true), rev.(badTokens := rev.badTokens + [RevokedToken(t, data.exp)]))
        case Database => (Success(true), if t in rev.table then rev else rev.(table := rev.table[t := data.exp]))
        case Cache => (Failure(NotImplemented), rev)
  }

  /** Off the database store, `revoke` as written is `revoke` as intended. */
  lemma RevokeAsWrittenAgreesOffDatabase(s: JWTSettings, codec: Codec, rev: Revocations, token: string)
    requires s.revokesStore != Database
    ensures RevokeAsWritten(s, codec, rev, token) == RevokeStep(s, codec, rev, token)
  {
  }

  /**
   * With the database store, revoking a decodable token that has no row raises as written and
   * records nothing, so the token still verifies as before; as intended, it is recorded.
   */
  lemma RevokeAsWrittenFailsInDatabase(s: JWTSettings, codec: Codec, rev: Revocations, token: string, now: int)
    requires s.revokesStore == Database
    requires codec.decode(StripBearer(token)).Some? && StripBearer(token) !in rev.table
    ensures RevokeAsWritten(s, codec, rev, token) == (Failure(Unmapped), rev)
    ensures Verify(s, codec, RevokeAsWritten(s, codec, rev, token).1, StripBearer(token), now)
            == Verify(s, codec, rev, StripBearer(token), now)
    ensures RevokeStep(s, codec, rev, token).0 == Success(true)
    ensures StripBearer(token) in RevokeStep(s, codec, rev, token).1.table
  {
  }

  /** A successful revocation adds exactly one record, and only to the configured store. */
  lemma RevokeAddsOneRecord(s: JWTSettings, codec: Codec, rev: Revocations, token: string)
    requires RevokeStep(s, codec, rev, token).0.Success?
    ensures var after := RevokeStep(s, codec, rev, token).1;
            && (s.revokesStore == Memory ==> (|after.badTokens| == |rev.badTokens| + 1 && after.table == rev.table))
            && (s.revokesStore == Database ==> (after.badTokens == rev.badTokens
                                                && after.table.Keys == rev.table.Keys + {StripBearer(token)}
                                                && StripBearer(token) !in rev.table))
  {
  }

  /** After a successful revocation the token no longer verifies, at any time. */
  lemma {:induction false} RevokedTokenRejected(s: JWTSettings, codec: Codec, rev: Revocations, token: string, now: int)
    requires RevokeStep(s, codec, rev, token).0.Success?
    ensures Verify(s, codec, RevokeStep(s, codec, rev, token).1, StripBearer(token), now).Failure?
  {
    var t := StripBearer(token);
    var after := RevokeStep(s, codec, rev, token).1;
    assert IsRevoked(s.revokesStore, after, t, codec.decode(t).value.exp) by {
      if s.revokesStore == Memory {
        assert after.badTokens[|after.badTokens| - 1] == RevokedToken(t, codec.decode(t).value.exp);
      }
    }
  }

  /** Revoking one token leaves the verdict on every other token as it was. */
  lemma {:induction false} RevokeKeepsOtherVerdicts(s: JWTSettings, codec: Codec, rev: Revocations, token: string,
                                                    other: Token, now: int)
    requires other != StripBearer(token)
    ensures Verify(s, codec, RevokeStep(s, codec, rev, token).1, other, now) == Verify(s, codec, rev, other, now)
  {
    var after := RevokeStep(s, codec, rev, token).1;
    forall exp: int ensures IsRevoked(s.revokesStore, after, other, exp) == IsRevoked(s.revokesStore, rev, other, exp) {
      if RevokeStep(s, codec, rev, token).0.Success? && s.revokesStore == Memory {
        var added := RevokedToken(StripBearer(token), codec.decode(StripBearer(token)).value.exp);
        assert after.badTokens == rev.badTokens + [added];
        assert RevokedToken(other, exp) != added;
      }
    }
  }

  /** Revoking a token a second time is refused with "Invalid token" and adds nothing. */
  lemma {:induction false} RevokeTwiceRefused(s: JWTSettings, codec: Codec, rev: Revocations, token: string)
    requires RevokeStep(s, codec, rev, token).0.Success?
    ensures var after := RevokeStep(s, codec, rev, token).1;
            RevokeStep(s, codec, after, token) == (Failure(InvalidToken), after)
  {
    var t := StripBearer(token);
    var after := RevokeStep(s, codec, rev, token).1;
    assert IsRevoked(s.revokesStore, after, t, codec.decode(t).value.exp) by {
      if s.revokesStore == Memory {
        assert after.badTokens[|after.badTokens| - 1] == RevokedToken(t, codec.decode(t).value.exp);
      }
    }
  }

  /** With the cache store nothing ever passes as "not revoked": checking, verifying and revoking all fail. */
  lemma CacheStoreAlwaysFails(s: JWTSettings, codec: Codec, rev: Revocations, token: Token, now: int)
    requires s.revokesStore == Cache
    ensures CheckRevoked(s, codec, rev, token).Failure?
    ensures Verify(s, codec, rev, token, now).Failure?
    ensures RevokeStep(s, codec, rev, token).0.Failure?
    ensures codec.decode(StripBearer(token)).Some? ==> RevokeStep(s, codec, rev, token).0 == Failure(NotImplemented)
    ensures RevokeAsWritten(s, codec, rev, token) == RevokeStep(s, codec, rev, token)
  {
  }

  /** The expiry `renew` computes: one step past the old expiry, capped at `jwt_expiration_max` minutes from now. */
  function RenewedExpiration(s: JWTSettings, oldExp: int, now: int): (e: int)
    ensures e <= oldExp + 60 * s.expirationStep && e <= now + 60 * s.expirationMax
    ensures e == oldExp + 60 * s.expirationStep || e == now + 60 * s.expirationMax
  {
    Min(oldExp + SecondsPerMinute * s.expirationStep, now + SecondsPerMinute * s.expirationMax)
  }

  /** `renew` accepts a "Bearer " or a "bearer " prefix. */
  function StripEitherBearer(token: string): string {
    if StartsWith(token, "Bearer ") then StripScheme(token, "Bearer") else StripScheme(token, "bearer")
  }

  /**
   * `renew` as written: the expiry is computed, but the payload receives
   * `new_expiration.utcnow()`, which is the current time.
   */
  function RenewAsWritten(s: JWTSettings, codec: Codec, token: string, now: int): (r: Result<Token, AuthError>)
    ensures r.Success? <==> codec.decode(StripEitherBearer(token)).Some?
    ensures r.Failure? ==> r.error == InvalidToken
    ensures r.Success? ==> var prior := codec.decode(StripEitherBearer(token)).value;
                           r.value == codec.encode(Claims(prior.sub, prior.iat, now))
  {
    match Parse(codec, StripEitherBearer(token))
    case Failure(e) => Failure(e)
    case Success(data) =>
      var newExpiration := RenewedExpiration(s, data.exp, now);
      Success(codec.encode(Claims(data.sub, data.iat, now)))
  }

  /** A token renewed as written is already "Token expired" one second later, whatever the settings. */
  lemma RenewAsWrittenExpiresAtOnce(s: JWTSettings, codec: Codec, rev: Revocations, token: string, now: int)
    requires RoundTrips(codec) && codec.decode(StripEitherBearer(token)).Some?
    ensures Verify(s, codec, rev, RenewAsWritten(s, codec, token, now).value, now + 1) == Failure(TokenExpired)
  {
  }

  /** `renew` with the computed expiry encoded, as the name `new_expiration` intends. */
  function Renew(s: JWTSettings, codec: Codec, token: string, now: int): (r: Result<Token, AuthError>)
    ensures r.Success? <==> codec.decode(StripEitherBearer(token)).Some?
    ensures r.Failure? ==> r.error == InvalidToken
    ensures r.Success? && RoundTrips(codec) ==>
              var prior := codec.decode(StripEitherBearer(token)).value;
              codec.decode(r.value) == Some(Claims(prior.sub, prior.iat, RenewedExpiration(s, prior.exp, now)))
  {
    match Parse(codec, StripEitherBearer(token))
    case Failure(e) => Failure(e)
    case Success(data) => Success(codec.encode(Claims(data.sub, data.iat, RenewedExpiration(s, data.exp, now))))
  }

  /**
   * Renewing a token that verifies now yields one that verifies now, for the same subject,
   * unless the new token itself is in the store; its expiry grows by at most one step and
   * never passes `now + jwt_expiration_max`.
   */
  lemma {:induction false} RenewKeepsSessionAlive(s: JWTSettings, codec: Codec, rev: Revocations, token: Token, now: int)
    requires RoundTrips(codec) && Consistent(s) && ' ' !in token
    requires Verify(s, codec, rev, token, now).Success?
    requires match Renew(s, codec, token, now)
             case Success(t) => !IsRevoked(s.revokesStore, rev, t, codec.decode(t).value.exp)
             case Failure(_) => true
    ensures Renew(s, codec, token, now).Success?
    ensures var t := Renew(s, codec, token, now).value;
            && Verify(s, codec, rev, t, now) == Verify(s, codec, rev, token, now)
            && now <= codec.decode(t).value.exp <= codec.decode(token).value.exp + 60 * s.expirationStep
            && codec.decode(t).value.exp <= now + 60 * s.expirationMax
  {
    SchemeNeedsSpace(token, "Bearer");
    SchemeNeedsSpace(token, "bearer");
  }

  /** Renewal does not consult the revocation store: a token `verify` refuses as revoked is renewed all the same. */
  lemma RenewIgnoresRevocation(s: JWTSettings, codec: Codec, rev: Revocations, token: Token, now: int)
    requires codec.decode(token).Some? && ' ' !in token
    requires IsRevoked(s.revokesStore, rev, token, codec.decode(token).value.exp)
    ensures Verify(s, codec, rev, token, now).Failure?
    ensures Renew(s, codec, token, now).Success?
  {
    SchemeNeedsSpace(token, "Bearer");
    SchemeNeedsSpace(token, "bearer");
  }

  /**
   * Under `jose`'s subject check the missing-subject branch of `verify` never fires: once the
   * time checks pass, the revocation check alone decides.
   */
  lemma SubjectCheckUnreachable(s: JWTSettings, codec: Codec, rev: Revocations, token: Token, now: int)
    requires ChecksSubject(codec)
    requires codec.decode(token).Some? && now <= codec.decode(token).value.exp && codec.decode(token).value.iat <= now
    ensures Verify(s, codec, rev, token, now).Success? <==> CheckRevoked(s, codec, rev, token).Success?
    ensures CheckRevoked(s, codec, rev, token).Failure?
            ==> Verify(s, codec, rev, token, now) == Failure(CheckRevoked(s, codec, rev, token).error)
  {
  }

  /** A bare token signed with a `null` subject does not decode, so `verify` and both renewals refuse it. */
  lemma SubjectlessTokenRefused(s: JWTSettings, codec: Codec, rev: Revocations, iat: int, exp: int, now: int)
    requires RoundTrips(codec) && ' ' !in codec.encode(Claims(None, iat, exp))
    ensures var t := codec.encode(Claims(None, iat, exp));
            && Verify(s, codec, rev, t, now) == Failure(InvalidToken)
            && Renew(s, codec, t, now) == Failure(InvalidToken)
            && RenewAsWritten(s, codec, t, now) == Failure(InvalidToken)
  {
    var t := codec.encode(Claims(None, iat, exp));
    SchemeNeedsSpace(t, "Bearer");
    SchemeNeedsSpace(t, "bearer");
  }

  /** Both spellings of the prefix renew the bare token. */
  lemma RenewStripsPrefix(s: JWTSettings, codec: Codec, t: Token, now: int)
    requires ' ' !in t
    ensures Renew(s, codec, "Bearer " + t, now) == Renew(s, codec, t, now)
    ensures Renew(s, codec, "bearer " + t, now) == Renew(s, codec, t, now)
  {
    StripBearerOfHeader(t);
    SchemeNeedsSpace(t, "Bearer");
    SchemeNeedsSpace(t, "bearer");
    assert !StartsWith("bearer " + t, "Bearer ") by {
      assert ("bearer " + t)[0] == 'b';
    }
  }

  /**
   * The ceiling is counted from the renewal, not from the issue: with the default 30/30/120
   * minutes, a token issued at 0 and renewed 110 minutes later while expiring at 115 minutes
   * is extended to 145 minutes, past issue plus 120 minutes.
   */
  lemma CeilingCountsFromRenewal()
    ensures RenewedExpiration(Default, 115 * 60, 110 * 60) == 145 * 60 > 0 + 120 * 60
  {
  }

  /** Renewals at one instant stop growing at `now + jwt_expiration_max`: 30 + 30 + 30 + 30 then the cap. */
  lemma RenewalsAtIssueAreCapped(now: int)
    ensures var e1 := RenewedExpiration(Default, now + 30 * 60, now);
            var e2 := RenewedExpiration(Default, e1, now);
            var e3 := RenewedExpiration(Default, e2, now);
            var e4 := RenewedExpiration(Default, e3, now);
            e1 == now + 60 * 60 && e3 == now + 120 * 60 && e4 == now + 120 * 60
  {
  }

  /**
   * The revocation stores as the process holds them: the module-level `bad_tokens` list and
   * the revoked-tokens table.
   */
  class RevocationStore {
    var badTokens: seq<RevokedToken>
    var table: map<Token, int>

    constructor ()
      ensures badTokens == [] && table == map[]
    {
      badTokens := [];
      table := map[];
    }

    function State(): Revocations
      reads this
    {
      Revocations(badTokens, table)
    }

    /** `revoke`, step by step on the stores; its outcome and new stores are those of `RevokeAsWritten`. */
    method Revoke(s: JWTSettings, codec: Codec, token: string) returns (r: Result<bool, AuthError>)
      modifies this
      ensures (r, State()) == RevokeAsWritten(s, codec, old(State()), token)
    {
      var t := token;
      if StartsWith(t, "Bearer ") {
        assert t[|"Bearer"|] == ' ';
        t := SecondField(t);
      }
      assert t == StripBearer(token);
      var parsed := Parse(codec, t);
      if parsed.Failure? {
        return Failure(parsed.error);
      }
      var revoked := RevokedToken(t, parsed.value.exp);
      var check := CheckRevoked(s, codec, State(), t);
      if check.Failure? {
        return Failure(check.error);
      }
      if check.value {
        if s.revokesStore == Memory {
          badTokens := badTokens + [revoked];
        }
        if s.revokesStore == Database {
          if t !in table {
            // `Session.add` of the unmapped `RevokedToken` raises before the commit.
            return Failure(Unmapped);
          }
        }
        if s.revokesStore == Cache {
          return Failure(NotImplemented);
        }
      }
      return Success(true);
    }
  }
}
