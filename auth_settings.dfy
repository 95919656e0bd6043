/** `SettingsAuth`, the settings of the earliest token factory, with its root validator. */
module AuthSettings {
  import opened Wrappers

  /** The store tag stays a string here so that the validator's empty-tag check can be examined. */
  datatype SettingsAuth = SettingsAuth(
    jwtKey: string,
    jwtAlgorithm: string,
    jwtExpiration: int,
    jwtRefreshEvery: int,
    jwtMaxRefresh: int,
    jwtBadStore: string,
    blockUserAfterFailAttempts: int)

  /** The three values of the `Literal` type of `jwt_bad_store`. */
  predicate IsStoreLiteral(s: string) {
    s == "memory" || s == "cache" || s == "database"
  }

  const NotALiteral: string := "unexpected value; permitted: 'memory', 'cache', 'database'"
  const BadStoreEmpty: string := "jwt_bad_store must not be empty"
  const ExpirationNegative: string := "jwt_expiration must be greater than or equal to 0"
  const KeyEmpty: string := "jwt_key must not be empty"
  const AlgorithmEmpty: string := "jwt_algorithm must not be empty"
  const FailAttemptsNegative: string := "block_user_after_fail_attempts must be greater than or equal to 0"

  /**
   * How constructing `SettingsAuth` fails. A `ValidationError` carries its messages in order:
   * the field errors, then the root validator's. pydantic v1 still calls the root validator
   * after `jwt_bad_store` has failed the `Literal`, with that key missing from `v`; reading it
   * raises `KeyError`, which pydantic does not convert and which escapes the constructor.
   */
  datatype SettingsError = Invalid(messages: seq<string>) | MissingField(field: string)

  /** The field errors: only the `Literal` of `jwt_bad_store` can fail for these types. */
  function FieldErrors(v: SettingsAuth): (r: seq<string>)
    ensures r == [] <==> IsStoreLiteral(v.jwtBadStore)
    ensures r != [] ==> r == [NotALiteral]
  {
    if IsStoreLiteral(v.jwtBadStore) then [] else [NotALiteral]
  }

  /**
   * The field check of the `Literal`, then `jwt_expiration_validator` on what passed: its checks
   * in order, the store read raising `KeyError` when the field failed. Accepted values come back
   * unchanged.
   */
  function Validate(v: SettingsAuth): (r: Result<SettingsAuth, SettingsError>)
    ensures r.Success? <==> IsStoreLiteral(v.jwtBadStore) && v.jwtExpiration >= 0 && v.jwtKey != ""
                            && v.jwtAlgorithm != "" && v.blockUserAfterFailAttempts >= 0
    ensures r.Success? ==> r.value == v
    ensures v.jwtExpiration < 0 ==> r == Failure(Invalid(FieldErrors(v) + [ExpirationNegative]))
    ensures v.jwtExpiration >= 0 && v.jwtKey == "" ==> r == Failure(Invalid(FieldErrors(v) + [KeyEmpty]))
    ensures v.jwtExpiration >= 0 && v.jwtKey != "" && v.jwtAlgorithm == ""
            ==> r == Failure(Invalid(FieldErrors(v) + [AlgorithmEmpty]))
    ensures !IsStoreLiteral(v.jwtBadStore) && v.jwtExpiration >= 0 && v.jwtKey != "" && v.jwtAlgorithm != ""
            ==> r == Failure(MissingField("jwt_bad_store"))
    ensures IsStoreLiteral(v.jwtBadStore) && v.jwtExpiration >= 0 && v.jwtKey != "" && v.jwtAlgorithm != ""
            && v.blockUserAfterFailAttempts < 0
            ==> r == Failure(Invalid([FailAttemptsNegative]))
  {
    var fieldErrors := FieldErrors(v);
    if v.jwtExpiration < 0 then Failure(Invalid(fieldErrors + [ExpirationNegative]))
    else if v.jwtKey == "" then Failure(Invalid(fieldErrors + [KeyEmpty]))
    else if v.jwtAlgorithm == "" then Failure(Invalid(fieldErrors + [AlgorithmEmpty]))
    else if !IsStoreLiteral(v.jwtBadStore) then Failure(MissingField("jwt_bad_store"))
    else if v.jwtBadStore == "" then Failure(Invalid([BadStoreEmpty]))
    else if v.blockUserAfterFailAttempts < 0 then Failure(Invalid([FailAttemptsNegative]))
    else Success(v)
  }

  /** A store outside the `Literal` is never accepted; when pydantic reports it, its error comes first. */
  lemma NonLiteralStoreRefused(v: SettingsAuth)
    requires !IsStoreLiteral(v.jwtBadStore)
    ensures Validate(v).Failure?
    ensures Validate(v).error.Invalid? ==> |Validate(v).error.messages| == 2 && Validate(v).error.messages[0] == NotALiteral
  {
  }

  /** Otherwise valid settings with an unknown store end in the uncaught `KeyError`. */
  lemma UnknownStoreRaisesKeyError()
    ensures Validate(SettingsAuth("k", "HS256", 60, 30, 300, "redis", 5)) == Failure(MissingField("jwt_bad_store"))
  {
  }

  /** The empty-store check never fires: the `Literal` has already excluded the empty string. */
  lemma EmptyStoreCheckUnreachable(v: SettingsAuth)
    ensures Validate(v).Failure? && Validate(v).error.Invalid? ==> BadStoreEmpty !in Validate(v).error.messages
  {
  }

  /** A zero expiration and a zero fail-attempt count (lockout off) are allowed. */
  lemma ZeroesAccepted(key: string, algorithm: string)
    requires key != "" && algorithm != ""
    ensures Validate(SettingsAuth(key, algorithm, 0, 30, 300, "memory", 0)).Success?
  {
  }
}
