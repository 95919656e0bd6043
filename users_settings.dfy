/** The password policy and the user settings, with their root validators. */
module UsersSettings {
  import opened Wrappers

  datatype PasswordPolicy = PasswordPolicy(
    active: bool,
    minLength: int,
    maxLength: int,
    minUpper: int,
    minLower: int,
    minDigits: int,
    minSpecial: int)

  const DefaultPolicy: PasswordPolicy := PasswordPolicy(true, 8, 64, 1, 1, 1, 1)

  /** Longest password a policy may ask for. */
  const MaxPasswordLength: int := 128

  // The messages of the `ValueError`s raised by the two validators.
  const MinUpperNegative: string := "min_upper must be greater than or equal to 0"
  const MinLowerNegative: string := "min_lower must be greater than or equal to 0"
  const MinDigitsNegative: string := "min_digits must be greater than or equal to 0"
  const MinSpecialNegative: string := "min_special must be greater than or equal to 0"
  const MinLengthNegative: string := "min_length must be greater than or equal to 0"
  const MaxLengthNegative: string := "max_length must be greater than or equal to 0"
  const LengthsInverted: string := "min_length must be less than or equal to max_length"
  const MinimumsExceedLength: string := "min_length must be more or equal to the sum of min_upper, min_lower, min_digits and min_special"
  const MaxLengthTooLarge: string := "max_length must be less than or equal to 128"
  const StrikesTooFew: string := "password_strikes must be greater than or equal to 1"
  const StrikesTooMany: string := "password_strikes must be less than or equal to 128"
  const NoLoginMethod: string := "allow_login_with_email and allow_login_with_username can't be both False"

  /** The per-class minimums a password must meet together. */
  function ClassMinimums(p: PasswordPolicy): int {
    p.minUpper + p.minLower + p.minDigits + p.minSpecial
  }

  /**
   * An accepted policy: no negative per-class minimum, and
   * `sum of minimums <= min_length <= max_length <= 128`
   * (non-negative lengths follow).
   */
  predicate Satisfiable(p: PasswordPolicy) {
    0 <= p.minUpper && 0 <= p.minLower && 0 <= p.minDigits && 0 <= p.minSpecial
    && ClassMinimums(p) <= p.minLength <= p.maxLength <= MaxPasswordLength
  }

  /** `password_policy_validator`: the checks in source order; accepted values come back unchanged. */
  function ValidatePolicy(p: PasswordPolicy): (r: Result<PasswordPolicy, string>)
    ensures r.Success? <==> Satisfiable(p)
    ensures r.Success? ==> r.value == p
    ensures p.minUpper < 0 ==> r == Failure(MinUpperNegative)
    ensures p.minUpper >= 0 && p.minLower < 0 ==> r == Failure(MinLowerNegative)
    ensures p.minUpper >= 0 && p.minLower >= 0 && p.minDigits < 0 ==> r == Failure(MinDigitsNegative)
    ensures p.minUpper >= 0 && p.minLower >= 0 && p.minDigits >= 0 && p.minSpecial < 0
            ==> r == Failure(MinSpecialNegative)
    ensures p.minUpper >= 0 && p.minLower >= 0 && p.minDigits >= 0 && p.minSpecial >= 0 && p.minLength < 0
            ==> r == Failure(MinLengthNegative)
    ensures p.minUpper >= 0 && p.minLower >= 0 && p.minDigits >= 0 && p.minSpecial >= 0
            && p.minLength >= 0 && p.maxLength < 0
            ==> r == Failure(MaxLengthNegative)
    ensures p.minUpper >= 0 && p.minLower >= 0 && p.minDigits >= 0 && p.minSpecial >= 0
            && p.minLength >= 0 && p.maxLength >= 0 && p.minLength > p.maxLength
            ==> r == Failure(LengthsInverted)
    ensures p.minUpper >= 0 && p.minLower >= 0 && p.minDigits >= 0 && p.minSpecial >= 0
            && 0 <= p.minLength <= p.maxLength && ClassMinimums(p) > p.minLength
            ==> r == Failure(MinimumsExceedLength)
    ensures p.minUpper >= 0 && p.minLower >= 0 && p.minDigits >= 0 && p.minSpecial >= 0
            && ClassMinimums(p) <= p.minLength <= p.maxLength && p.maxLength > MaxPasswordLength
            ==> r == Failure(MaxLengthTooLarge)
  {
    if p.minUpper < 0 then Failure(MinUpperNegative)
    else if p.minLower < 0 then Failure(MinLowerNegative)
    else if p.minDigits < 0 then Failure(MinDigitsNegative)
    else if p.minSpecial < 0 then Failure(MinSpecialNegative)
    else if p.minLength < 0 then Failure(MinLengthNegative)
    else if p.maxLength < 0 then Failure(MaxLengthNegative)
    else if p.minLength > p.maxLength then Failure(LengthsInverted)
    else if ClassMinimums(p) > p.minLength then
      Failure(MinimumsExceedLength)
    else if p.maxLength > MaxPasswordLength then Failure(MaxLengthTooLarge)
    else Success(p)
  }

  /** Equal minimum and maximum lengths are allowed. */
  lemma EqualLengthsAccepted()
    ensures ValidatePolicy(DefaultPolicy.(minLength := 8, maxLength := 8)).Success?
  {
  }

  /** The default policy, 8..64 characters with one of each class, passes. */
  lemma DefaultPolicyIsValid()
    ensures ValidatePolicy(DefaultPolicy) == Success(DefaultPolicy)
  {
  }

  datatype UserSettings = UserSettings(
    allowLoginWithEmail: bool,
    allowLoginWithUsername: bool,
    allowDelete: bool,
    allowPasswordReset: bool,
    defaultActive: bool,
    defaultVerified: bool,
    defaultBlocked: bool,
    blockUserOnPasswordStrikes: bool,
    passwordStrikes: int,
    passwordPolicy: PasswordPolicy)

  const DefaultUserSettings: UserSettings :=
    UserSettings(true, true, true, true, true, true, false, true, 3, DefaultPolicy)

  /** `settings_user_validator`: a strike threshold in 1..128 and at least one way to log in. */
  function ValidateUserSettings(u: UserSettings): (r: Result<UserSettings, string>)
    ensures r.Success? <==> 1 <= u.passwordStrikes <= 128 && (u.allowLoginWithEmail || u.allowLoginWithUsername)
    ensures r.Success? ==> r.value == u
    ensures u.passwordStrikes < 1 ==> r == Failure(StrikesTooFew)
    ensures u.passwordStrikes > 128 ==> r == Failure(StrikesTooMany)
    ensures 1 <= u.passwordStrikes <= 128 && !u.allowLoginWithEmail && !u.allowLoginWithUsername
            ==> r == Failure(NoLoginMethod)
  {
    if u.passwordStrikes < 1 then Failure(StrikesTooFew)
    else if u.passwordStrikes > 128 then Failure(StrikesTooMany)
    else if !u.allowLoginWithEmail && !u.allowLoginWithUsername then
      Failure(NoLoginMethod)
    else Success(u)
  }

  lemma DefaultUserSettingsAreValid()
    ensures ValidateUserSettings(DefaultUserSettings) == Success(DefaultUserSettings)
    ensures ValidatePolicy(DefaultUserSettings.passwordPolicy).Success?
  {
  }
}
