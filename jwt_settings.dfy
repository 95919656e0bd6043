/**
 * `JWTSettings` of the current token factory: the timing of issued tokens and the
 * revocation store, with the root validator that keeps the timing consistent.
 */
module JwtSettings {
  import opened Wrappers

  /** The `Literal["memory", "cache", "database"]` field: no other store can be configured. */
  datatype StoreKind = Memory | Cache | Database

  /** Durations are in minutes. */
  datatype JWTSettings = JWTSettings(
    algorithm: string,
    expirationInitial: int,
    expirationStep: int,
    expirationMax: int,
    revokesStore: StoreKind,
    blockUserAfterFailAttempts: int)

  const Default: JWTSettings := JWTSettings("HS256", 30, 30, 120, Memory, 5)

  const InitialTooSmall: string := "JWT expiration initial must be greater than 0."
  const StepNegative: string := "JWT expiration step must be greater than or equal to 0."
  const MaxTooSmall: string := "JWT expiration max must be greater than 0."
  const InitialAboveMax: string := "JWT expiration initial must be less than JWT expiration max."
  const StepAboveMax: string := "JWT expiration step plus JWT expiration initial must be less than JWT expiration max."

  /**
   * What an accepted setting guarantees: a positive first lifetime and a non-negative
   * step, one first renewal fitting under the ceiling. (`max >= 1` and `initial <= max`
   * follow from these.)
   */
  predicate Consistent(v: JWTSettings) {
    1 <= v.expirationInitial && 0 <= v.expirationStep
    && v.expirationInitial + v.expirationStep <= v.expirationMax
  }

  /** `jwt_expiration_validator`: the first failing comparison is the error; accepted values come back unchanged. */
  function Validate(v: JWTSettings): (r: Result<JWTSettings, string>)
    ensures r.Success? <==> Consistent(v)
    ensures r.Success? ==> r.value == v
    ensures v.expirationInitial < 1 ==> r == Failure(InitialTooSmall)
    ensures v.expirationInitial >= 1 && v.expirationStep < 0 ==> r == Failure(StepNegative)
    ensures v.expirationInitial >= 1 && v.expirationStep >= 0 && v.expirationMax < 1 ==> r == Failure(MaxTooSmall)
    ensures v.expirationInitial >= 1 && v.expirationStep >= 0 && v.expirationMax >= 1
            && v.expirationInitial > v.expirationMax
            ==> r == Failure(InitialAboveMax)
    ensures 1 <= v.expirationInitial <= v.expirationMax && v.expirationStep >= 0
            && v.expirationStep + v.expirationInitial > v.expirationMax
            ==> r == Failure(StepAboveMax)
  {
    if v.expirationInitial < 1 then Failure(InitialTooSmall)
    else if v.expirationStep < 0 then Failure(StepNegative)
    else if v.expirationMax < 1 then Failure(MaxTooSmall)
    else if v.expirationInitial > v.expirationMax then Failure(InitialAboveMax)
    else if v.expirationStep + v.expirationInitial > v.expirationMax then Failure(StepAboveMax)
    else Success(v)
  }

  /** A step of zero is allowed: renewal then never extends a token. */
  lemma ZeroStepAccepted(v: JWTSettings)
    requires 1 <= v.expirationInitial <= v.expirationMax && v.expirationStep == 0
    ensures Validate(v) == Success(v)
  {
  }

  /** The defaults, 30/30/120 minutes in memory, pass the validator. */
  lemma DefaultIsValid()
    ensures Validate(Default) == Success(Default)
  {
  }
}
