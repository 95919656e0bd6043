/**
 * The intermediate `JWTFactory` and `authenticate`. Its `__parce`, `__check_revoked`,
 * `create` and `verify` are those of the current revision (`JwtModel.Parse`,
 * `JwtModel.CheckRevoked`, `JwtModel.Create`, `JwtModel.Verify`); `revoke` and `renew`
 * differ and are modelled here.
 */
module TempAuth {
  import opened Wrappers
  import opened Text
  import opened Tokens
  import opened JwtSettings
  import opened JwtModel
  import opened UserRecords
  import AuthUtils

  /**
   * `revoke`: strip a "Bearer " prefix, decode, refuse a token already revoked, then record
   * it; the table row is added with no check of its own.
   */
  function TempRevokeStep(s: JWTSettings, codec: Codec, rev: Revocations, token: string)
    : (r: (Result<bool, AuthError>, Revocations))
    ensures r.0.Success? <==> CheckRevoked(s, codec, rev, StripBearer(token)).Success?
    ensures r.0.Success? ==> r.0.value
    ensures r.0.Failure? ==> r == (Failure(CheckRevoked(s, codec, rev, StripBearer(token)).error), rev)
    ensures r.0.Success? && s.revokesStore == Memory
            ==> r.1 == rev.(badTokens := rev.badTokens
                                        + [RevokedToken(StripBearer(token), codec.decode(StripBearer(token)).value.exp)])
    ensures r.0.Success? && s.revokesStore == Database
            ==> && StripBearer(token) !in rev.table
                && r.1 == rev.(table := rev.table[StripBearer(token) := codec.decode(StripBearer(token)).value.exp])
  {
    var t := StripBearer(token);
    match Parse(codec, t)
    case Failure(e) => (Failure(e), rev)
    case Success(data) =>
      match CheckRevoked(s, codec, rev, t)
      case Failure(e) => (Failure(e), rev)
      case Success(_) =>
        match s.revokesStore
        case Memory => (Success(true), rev.(badTokens := rev.badTokens + [RevokedToken(t, data.exp)]))
        case Database => (Success(true), rev.(table := rev.table[t := data.exp]))
        case Cache => (Failure(NotImplemented), rev)
  }

  /**
   * This revision is the current `revoke` as intended: the existence check the current revision
   * added before its insert changes nothing, since `__check_revoked` has already refused a token
   * that has a row. Off the database store it is also the current `revoke` as written.
   */
  lemma RevokeAgreesWithCurrent(s: JWTSettings, codec: Codec, rev: Revocations, token: string)
    ensures TempRevokeStep(s, codec, rev, token) == JwtModel.RevokeStep(s, codec, rev, token)
    ensures s.revokesStore != Database ==> TempRevokeStep(s, codec, rev, token) == RevokeAsWritten(s, codec, rev, token)
  {
  }

  /**
   * With the database store the two revisions part: this one records a fresh decodable token,
   * where the current one raises on its unmapped `RevokedToken`.
   */
  lemma TempRevokeDiffersInDatabase(s: JWTSettings, codec: Codec, rev: Revocations, token: string)
    requires s.revokesStore == Database
    requires codec.decode(StripBearer(token)).Some? && StripBearer(token) !in rev.table
    ensures TempRevokeStep(s, codec, rev, token).0 == Success(true)
    ensures RevokeAsWritten(s, codec, rev, token) == (Failure(Unmapped), rev)
    ensures TempRevokeStep(s, codec, rev, token).1 != RevokeAsWritten(s, codec, rev, token).1
  {
    assert StripBearer(token) in TempRevokeStep(s, codec, rev, token).1.table;
  }

  /** A second revocation of the same token is refused with "Invalid token" and adds nothing. */
  lemma {:induction false} TempRevokeTwiceRefused(s: JWTSettings, codec: Codec, rev: Revocations, token: string)
    requires TempRevokeStep(s, codec, rev, token).0.Success?
    ensures var after := TempRevokeStep(s, codec, rev, token).1;
            TempRevokeStep(s, codec, after, token) == (Failure(InvalidToken), after)
  {
    RevokeAgreesWithCurrent(s, codec, rev, token);
    RevokeAgreesWithCurrent(s, codec, TempRevokeStep(s, codec, rev, token).1, token);
    RevokeTwiceRefused(s, codec, rev, token);
  }

  /** `revoke` on the stores the process holds, step by step. */
  method Revoke(store: RevocationStore, s: JWTSettings, codec: Codec, token: string) returns (r: Result<bool, AuthError>)
    modifies store
    ensures (r, store.State()) == TempRevokeStep(s, codec, old(store.State()), token)
  {
    var t := token;
    if StartsWith(t, "Bearer ") {
      assert t[|"Bearer"|] == ' ';
      t := SecondField(t);
    }
    assert t == StripBearer(token);
    var parsed := Parse(codec, t);
    if parsed.Failure? {
      return Failure(parsed.error);
    }
    var check := CheckRevoked(s, codec, store.State(), t);
    if check.Failure? {
      return Failure(check.error);
    }
    if check.value {
      if s.revokesStore == Memory {
        store.badTokens := store.badTokens + [RevokedToken(t, parsed.value.exp)];
      }
      if s.revokesStore == Database {
        store.table := store.table[t := parsed.value.exp];
      }
      if s.revokesStore == Cache {
        return Failure(NotImplemented);
      }
    }
    return Success(true);
  }

  /** `renew` as written: only a "Bearer " prefix is stripped, and the current time is encoded as the expiry. */
  function TempRenewAsWritten(s: JWTSettings, codec: Codec, token: string, now: int): (r: Result<Token, AuthError>)
    ensures r.Success? <==> codec.decode(StripBearer(token)).Some?
    ensures r.Failure? ==> r.error == InvalidToken
    ensures r.Success? ==> var prior := codec.decode(StripBearer(token)).value;
                           r.value == codec.encode(Claims(prior.sub, prior.iat, now))
  {
    match Parse(codec, StripBearer(token))
    case Failure(e) => Failure(e)
    case Success(data) =>
      var newExpiration := RenewedExpiration(s, data.exp, now);
      Success(codec.encode(Claims(data.sub, data.iat, now)))
  }

  /** As in the current revision, a token renewed as written is "Token expired" one second later. */
  lemma TempRenewAsWrittenExpiresAtOnce(s: JWTSettings, codec: Codec, rev: Revocations, token: string, now: int)
    requires RoundTrips(codec) && codec.decode(StripBearer(token)).Some?
    ensures Verify(s, codec, rev, TempRenewAsWritten(s, codec, token, now).value, now + 1) == Failure(TokenExpired)
  {
  }

  /** `renew` with the computed expiry encoded. */
  function TempRenew(s: JWTSettings, codec: Codec, token: string, now: int): (r: Result<Token, AuthError>)
    ensures r.Success? <==> codec.decode(StripBearer(token)).Some?
    ensures r.Failure? ==> r.error == InvalidToken
    ensures r.Success? && RoundTrips(codec) ==>
              var prior := codec.decode(StripBearer(token)).value;
              codec.decode(r.value) == Some(Claims(prior.sub, prior.iat, RenewedExpiration(s, prior.exp, now)))
  {
    match Parse(codec, StripBearer(token))
    case Failure(e) => Failure(e)
    case Success(data) => Success(codec.encode(Claims(data.sub, data.iat, RenewedExpiration(s, data.exp, now))))
  }

  /** The two revisions renew alike every token that does not start with a lower-case "bearer ". */
  lemma TempRenewAgreesWithCurrent(s: JWTSettings, codec: Codec, token: string, now: int)
    requires !StartsWith(token, "bearer ")
    ensures TempRenew(s, codec, token, now) == JwtModel.Renew(s, codec, token, now)
  {
    assert "bearer" + " " == "bearer ";
    assert StripEitherBearer(token) == StripBearer(token);
  }

  /**
   * A lower-case "bearer " prefix is kept: such a header, which the signing library cannot
   * read, is "Invalid token" here while the current revision renews the token inside it.
   */
  lemma {:induction false} LowercasePrefixKept(s: JWTSettings, codec: Codec, t: Token, now: int)
    requires ' ' !in t
    ensures StripBearer("bearer " + t) == "bearer " + t
    ensures codec.decode("bearer " + t).None? ==> TempRenew(s, codec, "bearer " + t, now) == Failure(InvalidToken)
    ensures codec.decode(t).Some? ==> JwtModel.Renew(s, codec, "bearer " + t, now).Success?
  {
    assert "Bearer" + " " == "Bearer ";
    assert !StartsWith("bearer " + t, "Bearer ") by {
      assert ("bearer " + t)[0] == 'b';
    }
    RenewStripsPrefix(s, codec, t, now);
    SchemeNeedsSpace(t, "Bearer");
    SchemeNeedsSpace(t, "bearer");
  }

  /** `authenticate(token)`: the subject `verify` returns, then the user it names. */
  function TempAuthenticate(s: JWTSettings, codec: Codec, rev: Revocations, rows: seq<User>, token: Token, now: int)
    : (r: Result<User, AuthError>)
    ensures Verify(s, codec, rev, token, now).Failure? ==> r == Failure(Verify(s, codec, rev, token, now).error)
    ensures r.Success? <==> Accepts(s, codec, rev, token, now)
                            && AuthUtils.UserForSubject(rows, codec.decode(token).value.sub.value).Success?
    ensures r.Success? ==> Some(r.value.email) == codec.decode(token).value.sub && !r.value.blocked
  {
    match Verify(s, codec, rev, token, now)
    case Failure(e) => Failure(e)
    case Success(email) => AuthUtils.UserForSubject(rows, email)
  }

  /** A token this revision revoked no longer authenticates anybody. */
  lemma RevokedTokenLocksOut(s: JWTSettings, codec: Codec, rev: Revocations, rows: seq<User>, token: string, now: int)
    requires TempRevokeStep(s, codec, rev, token).0.Success?
    ensures TempAuthenticate(s, codec, TempRevokeStep(s, codec, rev, token).1, rows, StripBearer(token), now).Failure?
  {
    RevokeAgreesWithCurrent(s, codec, rev, token);
    RevokedTokenRejected(s, codec, rev, token, now);
  }
}
