# Token and credential core of the FastAPI user service, in Dafny

This project models the authentication core of a FastAPI/SQLAlchemy user-management
service and proves properties of the model. It covers:

- **The token factory `JWTFactory` in three revisions.**
  - The current one is `src/api/core/jwt/model.py`, in module `JwtModel`.
  - The intermediate one is `temp/auth/utils.py`, in module `TempAuth`. Its `__parce`, `__check_revoked`, `create` and `verify` are the same as the current ones, so `TempAuth` reuses `JwtModel`'s members.
  - The earliest one is `src/api/auth/utils.py`, in module `AuthUtils`.
  - The operations are `parce`, `check_revoked`, `create`, `verify`, `revoke` and `renew`.
  - The revocation store is the module-level `bad_tokens` list plus the revoked-tokens table. It is a class whose `Revoke` method changes it in place. Each `Revoke` is proved equal to a pure step function, and the lemmas are about that function.
- **The credential authenticator** of `src/api/core/jwt/utils.py` (`validate`, `authenticate`, `identify`), in module `JwtUtils`.
  - The user table is a class field holding the rows in query order.
  - `authenticate` writes the strike counter and the blocked flag of one row in place.
- **The validators as pure functions.** These are:
  - the JWT timing settings;
  - the password policy and user settings;
  - the password, name and username fields, with their title-case and lower-case normalisation;
  - the password-reset confirmation;
  - the older auth and API settings;
  - the two environment enumerations.
- **The random generators** `name` and `password` of `src/api/utils.py`, written as loops. Every random draw is a parameter.

### Conventions

- **The signing library.** `jose.jwt` is a `Codec`: a total `encode` and a partial `decode` that returns `None` where `jose` raises `JWTError`. Properties that need decoding to invert encoding assume `RoundTrips(codec)`. That predicate includes `jose`'s subject check (`ChecksSubject`): a payload whose `sub` is not a string raises `JWTClaimsError`, so it decodes to `None`.
- **Time.** Time is whole seconds in a parameter `now`. Settings count in minutes, which are multiplied by 60.
- **Errors.** Every `HTTPException` raised by the factories is an `AuthError`, and so are `NotImplementedError`, SQLAlchemy's `UnmappedInstanceError` and pydantic's `ValidationError` on a stored row. Validators return `Result<_, message>`, with the source's messages as constants. `SettingsAuth` is the one model whose refusal can hold two messages, so its error keeps the whole list. pydantic v1 runs a root validator even after a field has failed, and a `KeyError` raised there escapes unconverted; the model calls that `MissingField`.
- **Password checks.** Password verification (`argon2`) is an oracle `verifyHash(password, hash)`.
- **Characters.** Character classes are ASCII, as in Python's `string` module constants.

## Model

| member | source | states |
|---|---|---|
| `JwtModel.Parse` | src/api/core/jwt/model.py:41-54 | Decoding succeeds exactly when the codec reads the token, with its claims. Otherwise the error is "Invalid token". |
| `JwtModel.CheckRevoked` | src/api/core/jwt/model.py:56-75 | Succeeds (with `True`) exactly for a decodable token that the configured store does not hold and whose store is not the cache. An undecodable or revoked token gives "Invalid token", and the cache gives `NotImplementedError`. The memory list matches token and expiry; the table matches the token only. The same as temp/auth/utils.py:40-67. |
| `JwtModel.Create` | src/api/core/jwt/model.py:77-89 | The token decodes to subject `email`, issued `now`, expiring `jwt_expiration_initial` minutes later. The same as temp/auth/utils.py:69-82. |
| `JwtModel.Verify` | src/api/core/jwt/model.py:91-115 | Succeeds exactly when the token decodes, has not expired (`exp == now` passes), was not issued in the future, has a subject and is not revoked, and it returns that subject. Otherwise the first failing check in that order decides the error. The same chain as temp/auth/utils.py:84-108. |
| `JwtModel.CreatedTokenLifetime` | src/api/core/jwt/model.py:77-115 | A created, unrevoked token verifies with its email at every instant from issue to expiry, and is "Token expired" afterwards. |
| `JwtModel.FutureTokenRejected` | src/api/core/jwt/model.py:102-106 | A token presented before its issue time is "Invalid token" although it has not expired. |
| `JwtModel.RevokeAsWritten` | src/api/core/jwt/model.py:117-136 | `revoke` as written strips "Bearer " and succeeds exactly when `check_revoked` does and the store is memory; every failure leaves the stores unchanged. Memory appends one `RevokedToken(token, exp)`. With the database store, a token `check_revoked` lets through fails with `UnmappedInstanceError`. |
| `JwtModel.RevokeStep` | src/api/core/jwt/model.py:117-136 | `revoke` as intended, with a mapped row added at :132: it succeeds exactly when `check_revoked` does, leaving the stores unchanged on failure. Memory appends one `RevokedToken(token, exp)`. Database adds a row keyed by the token. |
| `JwtModel.RevokeAsWrittenAgreesOffDatabase` | src/api/core/jwt/model.py:126-135 | With the memory or the cache store, `revoke` as written and as intended coincide. |
| `JwtModel.RevokeAsWrittenFailsInDatabase` | src/api/core/jwt/model.py:129-133 | With the database store, revoking a decodable token that has no row raises as written, records nothing, and leaves the token's `verify` verdict as it was. As intended, the call succeeds and the token gets a row. |
| `JwtModel.RevokeAddsOneRecord` | src/api/core/jwt/model.py:125-133 | A successful revocation adds exactly one record, and only to the configured store. |
| `JwtModel.RevokedTokenRejected` | src/api/core/jwt/model.py:125-128 | After a successful revocation, `verify` of that token fails at every instant. |
| `JwtModel.RevokeKeepsOtherVerdicts` | src/api/core/jwt/model.py:125-128 | Revoking one token leaves `verify` on every other token exactly as it was. |
| `JwtModel.RevokeTwiceRefused` | src/api/core/jwt/model.py:126 | Revoking the same token again is refused with "Invalid token" by `check_revoked` and leaves the stores unchanged. |
| `JwtModel.CacheStoreAlwaysFails` | src/api/core/jwt/model.py:73-74 | With the cache store, `check_revoked`, `verify` and `revoke` all fail. A decodable token gives `NotImplementedError` in `revoke`, as written and as intended alike. |
| `JwtModel.RenewedExpiration` | src/api/core/jwt/model.py:145-148 | The computed expiry is one of `old_exp + step` and `now + max`, and it is no greater than either. |
| `JwtModel.RenewAsWritten` | src/api/core/jwt/model.py:138-160 | `renew` as written succeeds exactly for a decodable token after "Bearer "/"bearer " is stripped. It signs the old subject and issue time with expiry `now`. |
| `JwtModel.RenewAsWrittenExpiresAtOnce` | src/api/core/jwt/model.py:155 | A token renewed as written is "Token expired" one second later. |
| `JwtModel.Renew` | src/api/core/jwt/model.py:138-160 | The corrected `renew` succeeds on the same inputs. It signs the old subject and issue time with `min(old_exp + step, now + max)`. |
| `JwtModel.RenewKeepsSessionAlive` | src/api/core/jwt/model.py:141-155 | Renewing a token that verifies now gives a token with the same verdict now. Under consistent settings, its expiry is at least `now`, at most one step past the old expiry, and at most `now + max`. |
| `JwtModel.SubjectCheckUnreachable` | src/api/core/jwt/model.py:107-115 | Under `jose`'s subject check, a token that decodes and passes the time checks is refused by `verify` exactly when `check_revoked` refuses it, with that error: the missing-subject branch never fires. |
| `JwtModel.SubjectlessTokenRefused` | src/api/core/jwt/model.py:41-54 | A bare token signed with a `null` subject does not decode, so `verify`, `renew` as written and `renew` as intended all answer "Invalid token". |
| `JwtModel.RenewIgnoresRevocation` | src/api/core/jwt/model.py:143-153 | `renew` does not consult the revocation store: a revoked token that `verify` refuses is renewed all the same. |
| `JwtModel.RenewStripsPrefix` | src/api/core/jwt/model.py:141-142 | `"Bearer " + t` and `"bearer " + t` renew exactly as `t`. |
| `JwtModel.CeilingCountsFromRenewal` | src/api/core/jwt/model.py:147-148 | With the default settings, a renewal at 110 minutes of a token expiring at 115 gives 145 minutes, past issue plus 120. |
| `JwtModel.RenewalsAtIssueAreCapped` | src/api/core/jwt/model.py:145-148 | With the defaults, repeated renewals at one instant go 60, 90, 120 minutes and then stay at 120. |
| `JwtModel.RevocationStore.constructor` | src/api/core/jwt/model.py:16 | The stores start empty. |
| `JwtModel.RevocationStore.Revoke` | src/api/core/jwt/model.py:117-136 | The in-place `revoke` returns the outcome of `RevokeAsWritten` and leaves the stores in the state it describes. With the database store it returns `UnmappedInstanceError` before anything is written. |
| `Tokens.StripScheme` | src/api/core/jwt/model.py:120-121 | A token without the prefix is left as it is. With the prefix, the result is `split(" ")[1]`. |
| `Tokens.StripBearerOfHeader` | src/api/core/jwt/model.py:120-121 | `"Bearer " + t` and `"bearer " + t` strip to `t` for a bare token `t`. |
| `Text.SecondFieldAfterScheme` | src/api/core/jwt/model.py:121 | `split(" ")[1]` of `scheme + " " + t` is the first space-free field of `t`. |
| `TempAuth.TempRevokeStep` | temp/auth/utils.py:110-136 | `revoke` succeeds exactly when `__check_revoked` does. Memory appends one record. Database inserts without its own existence check, and the token never already has a row. |
| `TempAuth.RevokeAgreesWithCurrent` | temp/auth/utils.py:125-132 | This `revoke` equals the current one as intended on every input, because the existence check the current revision added can never fire. Off the database store it also equals the current one as written. |
| `TempAuth.TempRevokeDiffersInDatabase` | temp/auth/utils.py:125-132 | With the database store, this revision records a fresh decodable token, while the current one as written raises and leaves the stores unchanged. |
| `TempAuth.TempRevokeTwiceRefused` | temp/auth/utils.py:118 | A second revocation of the same token is "Invalid token" and changes nothing. |
| `TempAuth.Revoke` | temp/auth/utils.py:110-136 | The in-place `revoke` on the process's stores returns the outcome of `TempRevokeStep` and leaves the stores in its state. |
| `TempAuth.TempRenewAsWritten` | temp/auth/utils.py:138-163 | Strips only "Bearer ", succeeds exactly for a decodable token, and signs expiry `now`. |
| `TempAuth.TempRenewAsWrittenExpiresAtOnce` | temp/auth/utils.py:159 | A token renewed as written is "Token expired" one second later. |
| `TempAuth.TempRenew` | temp/auth/utils.py:138-163 | The corrected `renew` signs `min(old_exp + step, now + max)` with the old subject and issue time. |
| `TempAuth.TempRenewAgreesWithCurrent` | temp/auth/utils.py:141-142 | It renews like the current revision every token that does not start with "bearer ". |
| `TempAuth.LowercasePrefixKept` | temp/auth/utils.py:141-144 | A "bearer " prefix is not stripped here. If the codec cannot read that header, it is "Invalid token" here, while the current revision renews the token inside it. |
| `TempAuth.TempAuthenticate` | temp/auth/utils.py:172-190 | A `verify` failure propagates. Otherwise it succeeds exactly for a verified token whose subject names a row that validates and is not blocked. It returns that user, whose email is the subject. |
| `TempAuth.RevokedTokenLocksOut` | temp/auth/utils.py:177-178 | After a successful revocation, the token authenticates nobody. |
| `AuthUtils.Create` | src/api/auth/utils.py:23-33 | The token decodes to subject `email`, issued `now`, expiring `jwt_expiration` minutes later. |
| `AuthUtils.Verify` | src/api/auth/utils.py:35-61 | It runs decode, expiry, future issue and subject in that order, then raw-string membership in `bad_tokens`. A store other than memory is `NotImplementedError`. It succeeds exactly when all pass. |
| `AuthUtils.CreatedTokenLifetime` | src/api/auth/utils.py:23-48 | A created, unlisted token verifies from issue to expiry and is "Token expired" afterwards. |
| `AuthUtils.RevokeStep` | src/api/auth/utils.py:63-73 | In memory mode the stripped token is appended as the one new last element, with no decoding. Any other store is `NotImplementedError` with the list unchanged. |
| `AuthUtils.RevokeTwiceListsTwice` | src/api/auth/utils.py:63-69 | Revoking the same token twice succeeds both times and raises its count in the list by two. |
| `AuthUtils.RevokedTokenRejected` | src/api/auth/utils.py:56-58 | After a revocation, the listed token never verifies. It is "Invalid token" whenever it decodes and has not expired. |
| `AuthUtils.NonMemoryStoreUnimplemented` | src/api/auth/utils.py:56-72 | With a store other than memory, nothing verifies and `revoke` is `NotImplementedError`. A well-formed live token gets that error from `verify`. |
| `AuthUtils.UserForSubject` | src/api/auth/utils.py:88-94 | An unknown email gives "Bad credentials", a row failing the schema gives `ValidationError`, and a blocked user gives "User is blocked". Otherwise it returns the normalised user. Activity and verification are not looked at. |
| `AuthUtils.StatusChecksAddedLater` | src/api/auth/utils.py:88-94 | This lookup returns what the current `validate` returns whenever `validate` accepts. When the lookup accepts, `validate` also accepts exactly for active, verified users. |
| `AuthUtils.Authenticate` | src/api/auth/utils.py:85-94 | A `verify` failure propagates. It succeeds exactly for an accepted token whose subject's row validates and is not blocked. The user returned carries the subject as email. |
| `AuthUtils.RevokedTokenLocksOut` | src/api/auth/utils.py:56-58 | After a revocation, the token authenticates nobody. |
| `AuthUtils.BadTokenList.constructor` | src/api/auth/utils.py:15 | `bad_tokens` starts empty. |
| `AuthUtils.BadTokenList.Revoke` | src/api/auth/utils.py:63-73 | The in-place `revoke` returns the outcome of `RevokeStep` and leaves the list it describes. |
| `UserRecords.Find` | src/api/core/jwt/utils.py:29-31 | `.filter(column == x).first()` gives the first row holding `x`, or none exactly when no row holds it. |
| `UserRecords.FindAfterUpdate` | src/api/core/jwt/utils.py:107-117 | Writing a row without changing the looked-up column leaves every lookup by that column as it was. |
| `UserRecords.Normalised` | src/api/users/schema.py:92-112 | Building a user model succeeds exactly when both the username and name validators accept. The row then comes out with the username lower-cased and the name title-cased. |
| `UserRecords.NormalisedIsStable` | src/api/core/jwt/utils.py:146 | A normalised row passes the validators again unchanged, as when `identify` rebuilds it as `UserBase`. |
| `JwtUtils.Validate` | src/api/core/jwt/utils.py:14-57 | An unknown email gives "Bad token". A row failing the schema gives `ValidationError`. Then blocked, not active and not verified are refused in that order. It succeeds exactly for an eligible row, returning the normalised user. |
| `JwtUtils.Resolve` | src/api/core/jwt/utils.py:73-95 | Looks up by email first when that is allowed, and by username only when that found nothing and username login is allowed. Nothing is found exactly when every allowed lookup fails. |
| `JwtUtils.AuthenticateStep` | src/api/core/jwt/utils.py:60-126 | An unresolved identifier gives "Bad credentials" and a failing `validate` propagates, both with the table unchanged. A correct password resets the row's strikes and returns `create(stored email)`. A wrong password writes `Struck` to the row (one more strike, and blocked when blocking is on and the validated count has reached the threshold less one) and gives "Bad credentials". |
| `JwtUtils.AuthenticateTouchesOnlyLockout` | src/api/core/jwt/utils.py:107-125 | Only the row found can change, and only in `password_strikes` and `blocked`. |
| `JwtUtils.StatusCheckedBeforePassword` | src/api/core/jwt/utils.py:96-107 | An account `validate` refuses costs no strike, whatever the password. The error is its status error. |
| `JwtUtils.EmailLookupIsStable` | src/api/core/jwt/utils.py:97 | Looking a row's email up again finds a row with that email, at or before it. |
| `JwtUtils.LoginCreatesForStoredEmail` | src/api/core/jwt/utils.py:122-126 | A successful login returns `create` of the email stored on the row the lookup found, whatever the identifier was. |
| `JwtUtils.LoginTokenNamesStoredEmail` | src/api/core/jwt/utils.py:122-126 | A successful login's token names the stored email of the row found, not the identifier. |
| `JwtUtils.FailuresBlockAtThreshold` | src/api/core/jwt/utils.py:106-117 | With blocking on and threshold `N`, `n <= N` wrong passwords leave `n` strikes. The account is blocked exactly at the `N`-th. |
| `JwtUtils.StageValidates` | src/api/core/jwt/utils.py:76-97 | Below the threshold, the row is still found by its email and passes `validate`, whatever its strike count. |
| `JwtUtils.WrongPasswordStep` | src/api/core/jwt/utils.py:100-121 | A wrong password on the row holding `k < N` strikes gives "Bad credentials" and leaves `k + 1` strikes. It blocks exactly when `k + 1 == N`. |
| `JwtUtils.RepeatedReachesExpected` | src/api/core/jwt/utils.py:106-117 | Repeating a login attempt that takes each strike count to the next reaches the table with `n` strikes. |
| `JwtUtils.BlockedAccountGainsNoStrike` | src/api/core/jwt/utils.py:40-44 | Once blocked at the threshold, the next attempt is "User is blocked" with the table unchanged. |
| `JwtUtils.Identify` | src/api/core/jwt/utils.py:129-146 | A `verify` failure, then a `validate` failure, propagates. Otherwise it returns the profile of the validated user. |
| `JwtUtils.UserTable.Authenticate` | src/api/core/jwt/utils.py:60-126 | The in-place `authenticate` returns the outcome of `AuthenticateStep` and leaves the table in the state it describes. |
| `JwtSettings.Validate` | src/api/core/jwt/settings.py:39-59 | Accepts exactly when initial ≥ 1, step ≥ 0, max ≥ 1, initial ≤ max and initial + step ≤ max, returning the values unchanged. Each check's message comes in source order. |
| `JwtSettings.ZeroStepAccepted` | src/api/core/jwt/settings.py:44-45 | A step of zero is accepted. |
| `JwtSettings.DefaultIsValid` | src/api/core/jwt/settings.py:12-37 | The defaults 30/30/120 in memory pass unchanged. |
| `UsersSettings.ValidatePolicy` | src/api/users/settings.py:46-74 | Accepts exactly when no minimum is negative and sum of class minimums ≤ min_length ≤ max_length ≤ 128. Every one of the nine errors appears in source order, and an accepted policy is returned unchanged. |
| `UsersSettings.EqualLengthsAccepted` | src/api/users/settings.py:61-62 | Equal minimum and maximum lengths are accepted. |
| `UsersSettings.DefaultPolicyIsValid` | src/api/users/settings.py:10-44 | The default 8/64/1/1/1/1 policy passes unchanged. |
| `UsersSettings.ValidateUserSettings` | src/api/users/settings.py:142-156 | Accepts exactly when strikes are in 1..128 and a login method is allowed. The errors come in source order, and an accepted value is returned unchanged. |
| `UsersSettings.DefaultUserSettingsAreValid` | src/api/users/settings.py:86-156 | The default user settings and their policy pass. |
| `UsersSchema.Count` | src/api/users/schema.py:38-58 | A class count never exceeds the length. |
| `UsersSchema.CountConcat` | src/api/users/schema.py:38-58 | Counts add over concatenation. |
| `UsersSchema.ValidatePassword` | src/api/users/schema.py:21-59 | An inactive policy accepts everything. An active one accepts exactly when the length is within bounds and each class minimum is met, and returns the value unchanged. Each error carries its number, in source order. |
| `UsersSchema.ExamplePasswordAccepted` | src/api/users/schema.py:15-19 | The schema's example "P@ssw0rd" passes the default policy. |
| `UsersSchema.ValidateName` | src/api/users/schema.py:92-101 | Accepts exactly when there is a space and 5..128 characters, returning the title-cased value. Otherwise the message is the first failed check: no space, then too short, then too long. |
| `UsersSchema.ValidateUsername` | src/api/users/schema.py:103-112 | Accepts exactly when there is no space and 5..64 characters, returning the lower-cased value. Otherwise the message is the first failed check: a space, then too short, then too long. |
| `UsersSchema.NameNormalisationIsStable` | src/api/users/schema.py:101 | A title-cased accepted name is accepted again as itself. |
| `UsersSchema.UsernameNormalisationIsStable` | src/api/users/schema.py:112 | A lower-cased accepted username is accepted again as itself. |
| `Text.TitleIdempotent` | src/api/users/schema.py:101 | `title()` applied twice is `title()` once. |
| `Text.LowerIdempotent` | src/api/users/schema.py:112 | `lower()` applied twice is `lower()` once. |
| `Text.ConstantsAreClasses` | src/api/utils.py:93-108 | A character is in `string.digits`, `punctuation`, `ascii_uppercase` or `ascii_lowercase` exactly when it has that class. |
| `MyselfSchema.ValidateReset` | src/api/myself/schema.py:7-19 | Accepts exactly when both new and confirm pass the policy and are equal, returning them unchanged. It fails with the mismatch error when both pass but differ. When `new` fails the policy the result is the missing-field error for `new`; when only `confirm` fails, for `confirm`. The root validator still runs after a field fails and then reads a key that is not there. |
| `MyselfSchema.OldPasswordUnchecked` | src/api/myself/schema.py:10 | The old password never changes the outcome. |
| `MyselfSchema.AcceptedNewPasswordComplies` | src/api/myself/schema.py:11-12 | An accepted new password complies with an active policy and equals the confirmation. |
| `AuthSettings.Validate` | src/api/auth/settings.py:16-32 | Accepts exactly for a store literal, expiration ≥ 0, non-empty key and algorithm, and fail attempts ≥ 0, returning the values unchanged. A failing root check gives a `ValidationError` whose messages are the `Literal` error (when the store is not a literal) followed by that check's message, the checks coming in source order. A non-literal store with the first three checks passing ends in the `KeyError` on `jwt_bad_store`. |
| `AuthSettings.FieldErrors` | src/api/auth/settings.py:16 | The field errors are empty exactly when the store is one of the three literals, and are the `Literal` message otherwise. |
| `AuthSettings.NonLiteralStoreRefused` | src/api/auth/settings.py:16-29 | A non-literal store is always refused. When the refusal is a `ValidationError`, it holds two messages and the `Literal` one comes first. |
| `AuthSettings.UnknownStoreRaisesKeyError` | src/api/auth/settings.py:16-28 | `SettingsAuth("k", "HS256", 60, 30, 300, "redis", 5)` ends in the `KeyError`, not in a `ValidationError`. |
| `AuthSettings.EmptyStoreCheckUnreachable` | src/api/auth/settings.py:28-29 | The empty-store message never appears in a refusal. |
| `AuthSettings.ZeroesAccepted` | src/api/auth/settings.py:22-31 | Zero expiration and zero fail attempts are accepted. |
| `ApiSettings.Validate` | src/api/settings/schema.py:19-28 | Accepts exactly when both page sizes are positive, returning them unchanged. |
| `ApiSettings.MaxBelowInitialAccepted` | src/api/settings/schema.py:26-27 | A maximum below the initial size is accepted. |
| `ApiSettings.DefaultIsValid` | src/api/settings/schema.py:12-17 | The defaults 100/1000 pass unchanged. |
| `CoreEnvironment.StageProperties` | src/api/core/environment.py:18-31 | Production is the only non-debug stage, staging is the only one both debug and deployed, and testing is debug but not deployed. |
| `ApiEnvironment.LocalIsOnlyDebug` | src/api/environment.py:15-28 | Local is debug, not testing and not deployed. |
| `ApiEnvironment.AgreesWithCurrent` | src/api/environment.py:15-28 | Every stage has the same three properties as in the current enumeration. |
| `Generator.Joined` | src/api/utils.py:49-60 | No words give "". `k ≥ 1` words give `9k - 1` characters, with a space once there are two. |
| `Generator.JoinedOneMore` | src/api/utils.py:49-59 | One more turn of the loop adds a space and the next word. |
| `Generator.Name` | src/api/utils.py:26-60 | The loop builds the words joined by single spaces, of length `9·words - 1` (0 for no words). |
| `Generator.CapitalisedNameIsTitled` | src/api/utils.py:53-56 | A capitalised generated name is title-cased already. |
| `Generator.GeneratedNameAccepted` | src/api/utils.py:47-60 | A generated name of 2..14 words passes the name validator, unchanged when capitalised. |
| `Generator.CharSetClasses` | src/api/utils.py:88-109 | The pool holds only characters of the classes asked for. |
| `Generator.DrawnAt` | src/api/utils.py:112 | The j-th padding character is the pool character at the j-th shuffled position. |
| `Generator.Sample` | src/api/utils.py:112 | The loop draws the first `k` characters of the shuffled pool. |
| `Generator.Runs` | src/api/utils.py:91-109 | The four runs build exactly the pool of the classes asked for and the prefix of repeated drawn characters. |
| `Generator.Password` | src/api/utils.py:62-114 | A sum above `size` raises first, then a negative count, then `random.sample`'s error when the padding exceeds the pool. Success is exactly when none applies, and the result is the prefix followed by the drawn padding. |
| `Generator.PasswordShape` | src/api/utils.py:111-114 | A returned password has exactly `size` characters, and every padding character is from an enabled class. |
| `Generator.PrefixCounts` | src/api/utils.py:91-109 | Each class appears at least as often as requested. |
| `Generator.GeneratedPasswordComplies` | src/api/utils.py:91-114 | A generated password passes every policy whose length window holds `size` and whose minimums do not exceed the counts. |

## Left out

- Signing and decoding are not modelled. `jose` is an abstract `Codec`, and the HMAC is not modelled.
- `jose`'s subject check is a property of the codec (`ChecksSubject`, part of `RoundTrips`), not a step of `Parse`. Under it, the `sub is None` checks at src/api/core/jwt/model.py:108-112 and src/api/auth/utils.py:53-54 are unreachable, and a subjectless token is "Invalid token" at decoding, in `renew` too. Lemmas that do not assume the property also cover codecs that decode a `null` subject.
- The `print` calls at temp/auth/utils.py:133 and src/api/auth/utils.py:67,73 write to standard output only. They are not modelled.
- `jose`'s own `exp` check: `jwt.decode` raises `ExpiredSignatureError`, a `JWTError`, for a token past its expiry, and `parce` (src/api/core/jwt/model.py:49-53) and src/api/auth/utils.py:44-45 turn that into "Invalid token". The model's `decode` does not look at the clock. So where the model answers "Token expired", the program answers "Invalid token": after expiry in `JwtModel.CreatedTokenLifetime` and `AuthUtils.CreatedTokenLifetime`, one second after renewal in `JwtModel.RenewAsWrittenExpiresAtOnce` and `TempAuth.TempRenewAsWrittenExpiresAtOnce`, and in the inputs of the two findings. For the same reason `renew` refuses an expired token, which the model's `Renew` accepts.
- The two `utcnow()` calls of one operation are one instant `now`. Datetimes are whole seconds and timezones are not modelled.
- A payload missing a claim key, which would raise `KeyError`, is not modelled: decoded claims always carry `sub`, `iat` and `exp`.
- The password hash is an oracle. argon2, sha256, `uuid4`, salts, random emails and `password_birthday` are not modelled. src/api/core/model.py is not part of this model.
- The database session, commits and the ORM classes appear only as the state they hold: the revocation table and the user rows. The one exception is `Session.add` of the unmapped pydantic `RevokedToken`, which raises (`Unmapped`). src/api/users/orm.py is not part of this model.
- `JwtUtils.UserTable`: the user table is a sequence of rows in query order, not a map from id to record. `.first()` returns the first matching row, and `validate` re-queries by email, so a sequence keeps that order without assuming emails or usernames are unique.
- Which `active` `JwtUtils.Validate` reads: src/api/core/jwt/utils.py:8 imports `UserDB` from `api.users.model`, but the src/api/users/model.py shown holds only the ORM class. The `UserDB` of src/api/users/schema.py:158-199 comes from another revision and has no `active` field, although utils.py:46 reads one. The model takes `active` from the stored row (`UserORM.active`, src/api/users/model.py:16).
- User fields other than username, name, email, the status flags, the hash and the strike count are not modelled, and neither is `EmailStr` validation.
- The `Singleton` `__new__` machinery, pydantic field metadata, the HTTP layer and the routes are not modelled.
- Concurrent `renew`/`revoke` calls on the shared list are not modelled. Everything is sequential.
- The default `jwt_key` of `SettingsAuth` refers to `env.jwt_key`, which src/api/environment.py does not declare. The key is not modelled.
- src/api/core/paginator/utils.py:33 offsets by `page - 1` rather than by `(page - 1) * records`. Pagination is not modelled.
- Character classes are ASCII only. Python's Unicode `isupper`, `islower`, `isdigit` and `isalnum` are not modelled.
- `JwtModel.RenewKeepsSessionAlive` requires the renewed token not to be in the store. A freshly signed token colliding with a revoked one is not excluded by the code.

### Renewal in the code

- **The renewal ceiling.** The cap `jwt_expiration_max` is counted from the moment of renewal, not from the token's issue. `JwtModel.CeilingCountsFromRenewal` shows an expiry past issue plus the maximum.
- **What `renew` checks.** `renew` decodes the token and never consults the revocation store. See `JwtModel.RenewIgnoresRevocation`.

## Findings

| source | as written | input that shows it | evidently intended | confidence | as-written member | corrected member |
|---|---|---|---|---|---|---|
| src/api/core/jwt/model.py:155 | `"exp": new_expiration.utcnow()` encodes the current time, since `utcnow` is a class method that ignores `new_expiration` | any decodable token renewed at `now`, then refused at `now + 1` ("Token expired" in the model, "Invalid token" under `jose`'s own check) | `"exp": new_expiration`, the capped `min(old_exp + step, now + max)` | not executed | `JwtModel.RenewAsWritten` (`JwtModel.RenewAsWrittenExpiresAtOnce`) | `JwtModel.Renew` (`JwtModel.RenewKeepsSessionAlive`) |
| temp/auth/utils.py:159 | the same `new_expiration.utcnow()` | any decodable token renewed at `now`, then refused at `now + 1` ("Token expired" in the model, "Invalid token" under `jose`'s own check) | `"exp": new_expiration` | not executed | `TempAuth.TempRenewAsWritten` (`TempAuth.TempRenewAsWrittenExpiresAtOnce`) | `TempAuth.TempRenew` (`TempAuth.TempRenewAgreesWithCurrent`) |
| src/api/core/jwt/model.py:132 | `database_session.add(revoked)` adds the pydantic `RevokedToken` built at :125, which SQLAlchemy cannot map, so `add` raises `UnmappedInstanceError` | database store, any decodable token with no row: `revoke` raises and records nothing, so the token still verifies | adding `RevokedTokenORM(token=token, expiration=...)`, as temp/auth/utils.py:127-131 does | not executed | `JwtModel.RevokeAsWritten` (`JwtModel.RevokeAsWrittenFailsInDatabase`) | `JwtModel.RevokeStep` (`JwtModel.RevokedTokenRejected`) |
