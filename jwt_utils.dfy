/**
 * The credential authenticator of the current revision: `validate`, `authenticate` and
 * `identify`. Password checking is an oracle `verifyHash(password, hash)`.
 */
module JwtUtils {
  import opened Wrappers
  import opened Tokens
  import JwtSettings
  import opened UsersSettings
  import opened JwtModel
  import opened UserRecords

  /** The account states `validate` lets through. */
  predicate Eligible(u: User) {
    !u.blocked && u.active && u.verified
  }

  /**
   * `validate(email)`: the first row with that email, refused with "Bad token" when there is
   * none, then as a `ValidationError` when it fails the schema, then blocked, not active and
   * not verified, in that order; the row comes back as the normalised `UserDB`.
   */
  function Validate(rows: seq<User>, email: string): (r: Result<User, AuthError>)
    ensures Find(rows, EmailColumn, email).None? ==> r == Failure(BadToken)
    ensures Find(rows, EmailColumn, email).Some? ==>
              var u := rows[Find(rows, EmailColumn, email).value];
              && (Normalised(u).Failure? ==> r == Failure(InvalidRecord))
              && (Normalised(u).Success? && u.blocked ==> r == Failure(UserBlocked))
              && (Normalised(u).Success? && !u.blocked && !u.active ==> r == Failure(UserNotActive))
              && (Normalised(u).Success? && !u.blocked && u.active && !u.verified ==> r == Failure(UserNotVerified))
              && (r.Success? <==> Normalised(u).Success? && Eligible(u))
              && (r.Success? ==> r.value == Normalised(u).value)
  {
    match Find(rows, EmailColumn, email)
    case None => Failure(BadToken)
    case Some(j) =>
      match Normalised(rows[j])
      case Failure(e) => Failure(e)
      case Success(u) =>
        if u.blocked then Failure(UserBlocked)
        else if !u.active then Failure(UserNotActive)
        else if !u.verified then Failure(UserNotVerified)
        else Success(u)
  }

  /**
   * The lookup of `authenticate`: by email when that login is allowed, then by username when
   * nothing was found and that login is allowed.
   */
  function Resolve(us: UserSettings, rows: seq<User>, identifier: string): (r: Option<nat>)
    ensures us.allowLoginWithEmail && Find(rows, EmailColumn, identifier).Some?
            ==> r == Find(rows, EmailColumn, identifier)
    ensures !(us.allowLoginWithEmail && Find(rows, EmailColumn, identifier).Some?)
            ==> r == (if us.allowLoginWithUsername then Find(rows, UsernameColumn, identifier) else None)
    ensures r.None? <==> (!us.allowLoginWithEmail || Find(rows, EmailColumn, identifier).None?)
                         && (!us.allowLoginWithUsername || Find(rows, UsernameColumn, identifier).None?)
    ensures r.Some? ==> r.value < |rows|
  {
    var byEmail := if us.allowLoginWithEmail then Find(rows, EmailColumn, identifier) else None;
    if byEmail.None? && us.allowLoginWithUsername then Find(rows, UsernameColumn, identifier) else byEmail
  }

  /** The row `authenticate` writes to after a wrong password: one more strike, and blocked at the threshold. */
  function Struck(us: UserSettings, row: User, snapshot: User): User {
    var blocked := if us.blockUserOnPasswordStrikes && snapshot.passwordStrikes >= us.passwordStrikes - 1
                   then true else row.blocked;
    row.(passwordStrikes := row.passwordStrikes + 1, blocked := blocked)
  }

  /**
   * `authenticate`: the outcome and the table afterwards. The row found by the lookup is the
   * one written; the `UserDB` that `validate` returned supplies the hash, the strike count
   * compared with the threshold, and the email the token is issued for.
   */
  function AuthenticateStep(us: UserSettings, s: JwtSettings.JWTSettings, codec: Codec, verifyHash: (string, string) -> bool,
                            rows: seq<User>, identifier: string, password: string, now: int)
    : (r: (Result<Token, AuthError>, seq<User>))
    ensures |r.1| == |rows|
    ensures Resolve(us, rows, identifier).None? ==> r == (Failure(BadCredentials), rows)
    ensures Resolve(us, rows, identifier).Some? && Validate(rows, rows[Resolve(us, rows, identifier).value].email).Failure?
            ==> r == (Failure(Validate(rows, rows[Resolve(us, rows, identifier).value].email).error), rows)
    ensures Resolve(us, rows, identifier).Some? && Validate(rows, rows[Resolve(us, rows, identifier).value].email).Success?
            ==> var i := Resolve(us, rows, identifier).value;
                var u := Validate(rows, rows[i].email).value;
                && (verifyHash(password, u.passwordHash)
                    ==> r == (Success(Create(s, codec, u.email, now)), rows[i := rows[i].(passwordStrikes := 0)]))
                && (!verifyHash(password, u.passwordHash)
                    ==> r == (Failure(BadCredentials), rows[i := Struck(us, rows[i], u)]))
  {
    match Resolve(us, rows, identifier)
    case None => (Failure(BadCredentials), rows)
    case Some(i) =>
      match Validate(rows, rows[i].email)
      case Failure(e) => (Failure(e), rows)
      case Success(u) =>
        if !verifyHash(password, u.passwordHash) then
          (Failure(BadCredentials), rows[i := Struck(us, rows[i], u)])
        else
          (Success(Create(s, codec, u.email, now)), rows[i := rows[i].(passwordStrikes := 0)])
  }

  /** Only the strike counter and the blocked flag of a row can change; identity and status stay. */
  predicate SameButLockout(a: User, b: User) {
    a.(passwordStrikes := 0, blocked := false) == b.(passwordStrikes := 0, blocked := false)
  }

  /** Nothing but `password_strikes` and `blocked` of the one row found is ever written. */
  lemma AuthenticateTouchesOnlyLockout(us: UserSettings, s: JwtSettings.JWTSettings, codec: Codec,
                                       verifyHash: (string, string) -> bool,
                                       rows: seq<User>, identifier: string, password: string, now: int)
    ensures var after := AuthenticateStep(us, s, codec, verifyHash, rows, identifier, password, now).1;
            forall j :: 0 <= j < |rows| ==>
                          && SameButLockout(after[j], rows[j])
                          && (after[j] != rows[j] ==> Resolve(us, rows, identifier) == Some(j))
  {
  }

  /**
   * An account refused by `validate` costs no strike, whatever password is given: the status
   * checks come before the password check.
   */
  lemma StatusCheckedBeforePassword(us: UserSettings, s: JwtSettings.JWTSettings, codec: Codec,
                                    verifyHash: (string, string) -> bool,
                                    rows: seq<User>, identifier: string, password: string, now: int)
    requires Resolve(us, rows, identifier).Some?
    requires var u := rows[Resolve(us, rows, identifier).value];
             Find(rows, EmailColumn, u.email) == Resolve(us, rows, identifier) && !Eligible(u)
    ensures AuthenticateStep(us, s, codec, verifyHash, rows, identifier, password, now).1 == rows
    ensures AuthenticateStep(us, s, codec, verifyHash, rows, identifier, password, now).0
            in {Failure(UserBlocked), Failure(UserNotActive), Failure(UserNotVerified), Failure(InvalidRecord)}
  {
  }

  /** The row a lookup by email returns is the row `validate` looks up again by the same email. */
  lemma {:induction false} EmailLookupIsStable(rows: seq<User>, i: nat)
    requires i < |rows|
    ensures Find(rows, EmailColumn, rows[i].email).Some?
    ensures rows[Find(rows, EmailColumn, rows[i].email).value].email == rows[i].email
    ensures Find(rows, EmailColumn, rows[i].email).value <= i
  {
    assert Field(rows[i], EmailColumn) == rows[i].email;
  }

  /** A successful login returns `create` of the email stored on the row found. */
  lemma LoginCreatesForStoredEmail(us: UserSettings, s: JwtSettings.JWTSettings, codec: Codec,
                                   verifyHash: (string, string) -> bool,
                                   rows: seq<User>, identifier: string, password: string, now: int)
    requires AuthenticateStep(us, s, codec, verifyHash, rows, identifier, password, now).0.Success?
    ensures AuthenticateStep(us, s, codec, verifyHash, rows, identifier, password, now).0
            == Success(Create(s, codec, rows[Resolve(us, rows, identifier).value].email, now))
  {
    var i := Resolve(us, rows, identifier).value;
    EmailLookupIsStable(rows, i);
    assert Validate(rows, rows[i].email).value.email == rows[i].email;
  }

  /**
   * A successful login issues a token for the email stored on the row found, which is not the
   * identifier given when the login was by username.
   */
  lemma LoginTokenNamesStoredEmail(us: UserSettings, s: JwtSettings.JWTSettings, codec: Codec,
                                   verifyHash: (string, string) -> bool,
                                   rows: seq<User>, identifier: string, password: string, now: int)
    requires RoundTrips(codec)
    requires AuthenticateStep(us, s, codec, verifyHash, rows, identifier, password, now).0.Success?
    ensures var i := Resolve(us, rows, identifier).value;
            var t := AuthenticateStep(us, s, codec, verifyHash, rows, identifier, password, now).0.value;
            codec.decode(t) == Some(Claims(Some(rows[i].email), now, now + 60 * s.expirationInitial))
  {
    LoginCreatesForStoredEmail(us, s, codec, verifyHash, rows, identifier, password, now);
  }

  /** `n` calls of `attempt`, each on the table the one before it left. */
  function Repeated(attempt: seq<User> -> seq<User>, rows: seq<User>, n: nat): seq<User>
  {
    if n == 0 then rows else attempt(Repeated(attempt, rows, n - 1))
  }

  /** The table after one call of `authenticate` with this identifier and password. */
  function Attempt(us: UserSettings, s: JwtSettings.JWTSettings, codec: Codec, verifyHash: (string, string) -> bool,
                   identifier: string, password: string, now: int): seq<User> -> seq<User>
  {
    table => AuthenticateStep(us, s, codec, verifyHash, table, identifier, password, now).1
  }

  /** `n` failed logins in a row with the same identifier and wrong password. */
  function Failures(us: UserSettings, s: JwtSettings.JWTSettings, codec: Codec, verifyHash: (string, string) -> bool,
                    rows: seq<User>, identifier: string, password: string, now: int, n: nat): seq<User>
  {
    Repeated(Attempt(us, s, codec, verifyHash, identifier, password, now), rows, n)
  }

  /** The preconditions of the lockout scenario: an eligible row first in the table for its email. */
  predicate LockoutScenario(us: UserSettings, verifyHash: (string, string) -> bool, rows: seq<User>,
                            i: nat, password: string)
  {
    && i < |rows|
    && us.allowLoginWithEmail && us.blockUserOnPasswordStrikes && us.passwordStrikes >= 1
    && Find(rows, EmailColumn, rows[i].email) == Some(i)
    && Normalised(rows[i]).Success? && Eligible(rows[i]) && rows[i].passwordStrikes == 0
    && !verifyHash(password, rows[i].passwordHash)
  }

  /** The table after `n` wrong passwords on the scenario's row: `n` strikes, blocked once `n` reaches the threshold. */
  function Expected(us: UserSettings, rows: seq<User>, i: nat, n: nat): seq<User>
    requires i < |rows|
  {
    rows[i := rows[i].(passwordStrikes := n, blocked := n == us.passwordStrikes)]
  }

  /** Repeating a step that takes each stage of `Expected` to the next reaches stage `n`. */
  lemma {:induction false} RepeatedReachesExpected(us: UserSettings, rows: seq<User>, i: nat,
                                                    attempt: seq<User> -> seq<User>, n: nat)
    requires i < |rows| && rows[i].passwordStrikes == 0 && !rows[i].blocked && us.passwordStrikes >= 1
    requires forall k: nat :: k < n ==> attempt(Expected(us, rows, i, k)) == Expected(us, rows, i, k + 1)
    ensures Repeated(attempt, rows, n) == Expected(us, rows, i, n)
  {
    if n == 0 {
      assert rows[i].(passwordStrikes := 0, blocked := false) == rows[i];
    } else {
      RepeatedReachesExpected(us, rows, i, attempt, n - 1);
    }
  }

  /**
   * With blocking on and a threshold of `N` strikes, the first `N - 1` wrong passwords only
   * count, and the `N`-th also blocks the account; `n` failures leave `n` strikes.
   */
  lemma FailuresBlockAtThreshold(us: UserSettings, s: JwtSettings.JWTSettings, codec: Codec,
                                 verifyHash: (string, string) -> bool,
                                 rows: seq<User>, i: nat, password: string, now: int, n: nat)
    requires LockoutScenario(us, verifyHash, rows, i, password)
    requires n <= us.passwordStrikes
    ensures Failures(us, s, codec, verifyHash, rows, rows[i].email, password, now, n) == Expected(us, rows, i, n)
  {
    var attempt := Attempt(us, s, codec, verifyHash, rows[i].email, password, now);
    forall k: nat | k < n
      ensures attempt(Expected(us, rows, i, k)) == Expected(us, rows, i, k + 1)
    {
      WrongPasswordStep(us, s, codec, verifyHash, rows, i, password, now, k);
    }
    RepeatedReachesExpected(us, rows, i, attempt, n);
  }

  /** Below the threshold, the scenario's row is still found by its email and passes `validate`. */
  lemma StageValidates(us: UserSettings, verifyHash: (string, string) -> bool,
                       rows: seq<User>, i: nat, password: string, k: nat)
    requires LockoutScenario(us, verifyHash, rows, i, password)
    requires k < us.passwordStrikes
    ensures Resolve(us, Expected(us, rows, i, k), rows[i].email) == Some(i)
    ensures Validate(Expected(us, rows, i, k), rows[i].email) == Success(Normalised(rows[i]).value.(passwordStrikes := k))
  {
    var row := rows[i].(passwordStrikes := k, blocked := false);
    FindAfterUpdate(rows, i, row, EmailColumn, rows[i].email);
    assert Normalised(row).value == Normalised(rows[i]).value.(passwordStrikes := k);
  }

  /** A wrong password on the scenario's row while it holds `k` strikes, below the threshold. */
  lemma WrongPasswordStep(us: UserSettings, s: JwtSettings.JWTSettings, codec: Codec,
                          verifyHash: (string, string) -> bool,
                          rows: seq<User>, i: nat, password: string, now: int, k: nat)
    requires LockoutScenario(us, verifyHash, rows, i, password)
    requires k < us.passwordStrikes
    ensures AuthenticateStep(us, s, codec, verifyHash, Expected(us, rows, i, k), rows[i].email, password, now)
            == (Failure(BadCredentials), Expected(us, rows, i, k + 1))
  {
    StageValidates(us, verifyHash, rows, i, password, k);
    var before := Expected(us, rows, i, k);
    var u := Normalised(rows[i]).value.(passwordStrikes := k);
    var after := rows[i].(passwordStrikes := k + 1, blocked := k + 1 == us.passwordStrikes);
    assert Struck(us, before[i], u) == after;
    assert before[i := after] == Expected(us, rows, i, k + 1);
  }

  /** Once blocked, the account is refused as blocked and gains no further strike. */
  lemma BlockedAccountGainsNoStrike(us: UserSettings, s: JwtSettings.JWTSettings, codec: Codec,
                                    verifyHash: (string, string) -> bool,
                                    rows: seq<User>, i: nat, password: string, now: int)
    requires LockoutScenario(us, verifyHash, rows, i, password)
    ensures var blocked := Failures(us, s, codec, verifyHash, rows, rows[i].email, password, now, us.passwordStrikes);
            AuthenticateStep(us, s, codec, verifyHash, blocked, rows[i].email, password, now)
            == (Failure(UserBlocked), blocked)
  {
    FailuresBlockAtThreshold(us, s, codec, verifyHash, rows, i, password, now, us.passwordStrikes);
    var row := rows[i].(passwordStrikes := us.passwordStrikes, blocked := true);
    FindAfterUpdate(rows, i, row, EmailColumn, rows[i].email);
  }

  /**
   * `identify(token)`: the subject of a verified token must name a user `validate` accepts;
   * the `UserDB` is rebuilt as a `UserBase`, which runs the field validators once more.
   */
  function Identify(s: JwtSettings.JWTSettings, codec: Codec, rev: Revocations, rows: seq<User>, token: Token, now: int)
    : (r: Result<Profile, AuthError>)
    ensures Verify(s, codec, rev, token, now).Failure? ==> r == Failure(Verify(s, codec, rev, token, now).error)
    ensures Verify(s, codec, rev, token, now).Success? ==>
              var v := Validate(rows, Verify(s, codec, rev, token, now).value);
              && (v.Failure? ==> r == Failure(v.error))
              && (v.Success? ==> r == Success(ProfileOf(v.value)))
  {
    match Verify(s, codec, rev, token, now)
    case Failure(e) => Failure(e)
    case Success(subject) =>
      match Validate(rows, subject)
      case Failure(e) => Failure(e)
      case Success(u) =>
        NormalisedIsStable(rows[Find(rows, EmailColumn, subject).value]);
        match Normalised(u)
        case Failure(e) => assert false; Failure(e)  // a normalised row validates again
        case Success(v) => Success(ProfileOf(v))
  }

  /**
   * The caller of `authenticate`'s table: every login attempt reads it and may write one row.
   */
  class UserTable {
    var rows: seq<User>

    constructor (initial: seq<User>)
      ensures rows == initial
    {
      rows := initial;
    }

    /** `authenticate(credentials)`, with the strike bookkeeping done in place on the row found. */
    method Authenticate(us: UserSettings, s: JwtSettings.JWTSettings, codec: Codec, verifyHash: (string, string) -> bool,
                        identifier: string, password: string, now: int)
      returns (r: Result<Token, AuthError>)
      modifies this
      ensures (r, rows) == AuthenticateStep(us, s, codec, verifyHash, old(rows), identifier, password, now)
    {
      var table := rows;
      var found := Resolve(us, table, identifier);
      if found.None? {
        return Failure(BadCredentials);
      }
      var i := found.value;
      var validated := Validate(table, table[i].email);
      if validated.Failure? {
        return Failure(validated.error);
      }
      var userDb := validated.value;
      if !verifyHash(password, userDb.passwordHash) {
        var row := Struck(us, table[i], userDb);
        rows := table[i := row];
        return Failure(BadCredentials);
      }
      rows := table[i := table[i].(passwordStrikes := 0)];
      return Success(Create(s, codec, userDb.email, now));
    }
  }
}
