/**
 * Field validators of the user schemas: the password policy check applied to every
 * `Password`, and the `name` and `username` checks that normalise their values.
 */
module UsersSchema {
  import opened Wrappers
  import opened Text
  import opened UsersSettings

  /** The character classes the policy counts; "special" is anything not alphanumeric. */
  datatype CharClass = UpperChars | LowerChars | DigitChars | SpecialChars

  predicate InClass(c: char, k: CharClass) {
    match k
    case UpperChars => IsUpper(c)
    case LowerChars => IsLower(c)
    case DigitChars => IsDigit(c)
    case SpecialChars => !IsAlnum(c)
  }

  /** `sum(1 for caracter in value if ...)`: how many characters of `s` are in class `k`. */
  function Count(s: string, k: CharClass): (n: nat)
    ensures n <= |s|
    ensures n == 0 <==> forall i :: 0 <= i < |s| ==> !InClass(s[i], k)
  {
    if s == [] then 0 else (if InClass(s[0], k) then 1 else 0) + Count(s[1..], k)
  }

  lemma {:induction false} CountConcat(a: string, b: string, k: CharClass)
    ensures Count(a + b, k) == Count(a, k) + Count(b, k)
  {
    if a != [] {
      assert (a + b)[1..] == a[1..] + b;
      CountConcat(a[1..], b, k);
    } else {
      assert a + b == b;
    }
  }

  lemma {:induction false} CountRepeat(c: char, n: int, k: CharClass)
    ensures Count(Repeat(c, n), k) == if n > 0 && InClass(c, k) then n else 0
    decreases n
  {
    if n > 0 {
      assert Repeat(c, n)[1..] == Repeat(c, n - 1);
      CountRepeat(c, n - 1, k);
    }
  }

  /** The messages of the policy check, each carrying the number it quotes. */
  datatype PasswordError =
    | TooShort(minLength: int)      // "Password must have at least {min_length} characters"
    | TooLong(maxLength: int)       // "Password must have at most {max_length} characters"
    | TooFewUpper(minUpper: int)    // "... at least {min_upper} uppercase letters"
    | TooFewLower(minLower: int)    // "... at least {min_lower} lowercase letters"
    | TooFewDigits(minDigits: int)  // "... at least {min_digits} digits"
    | TooFewSpecial(minSpecial: int) // "... at least {min_special} special characters"

  /**
   * What an active policy demands of a password. The source guards each count by
   * `min_x > 0`; a count is never negative, so the guards change nothing.
   */
  predicate Complies(p: PasswordPolicy, value: string) {
    p.minLength <= |value| <= p.maxLength
    && Count(value, UpperChars) >= p.minUpper && Count(value, LowerChars) >= p.minLower
    && Count(value, DigitChars) >= p.minDigits && Count(value, SpecialChars) >= p.minSpecial
  }

  /** `Password.passwords_match`: the policy's checks in order; a valid password is returned as given. */
  function ValidatePassword(p: PasswordPolicy, value: string): (r: Result<string, PasswordError>)
    ensures r.Success? <==> !p.active || Complies(p, value)
    ensures r.Success? ==> r.value == value
    ensures p.active && |value| < p.minLength ==> r == Failure(TooShort(p.minLength))
    ensures p.active && p.minLength <= |value| && |value| > p.maxLength ==> r == Failure(TooLong(p.maxLength))
    ensures p.active && p.minLength <= |value| <= p.maxLength && Count(value, UpperChars) < p.minUpper
            ==> r == Failure(TooFewUpper(p.minUpper))
    ensures p.active && p.minLength <= |value| <= p.maxLength && Count(value, UpperChars) >= p.minUpper
            && Count(value, LowerChars) < p.minLower
            ==> r == Failure(TooFewLower(p.minLower))
    ensures p.active && p.minLength <= |value| <= p.maxLength && Count(value, UpperChars) >= p.minUpper
            && Count(value, LowerChars) >= p.minLower && Count(value, DigitChars) < p.minDigits
            ==> r == Failure(TooFewDigits(p.minDigits))
    ensures p.active && p.minLength <= |value| <= p.maxLength && Count(value, UpperChars) >= p.minUpper
            && Count(value, LowerChars) >= p.minLower && Count(value, DigitChars) >= p.minDigits
            && Count(value, SpecialChars) < p.minSpecial
            ==> r == Failure(TooFewSpecial(p.minSpecial))
  {
    if !p.active then Success(value)
    else if |value| < p.minLength then Failure(TooShort(p.minLength))
    else if |value| > p.maxLength then Failure(TooLong(p.maxLength))
    else if p.minUpper > 0 && Count(value, UpperChars) < p.minUpper then Failure(TooFewUpper(p.minUpper))
    else if p.minLower > 0 && Count(value, LowerChars) < p.minLower then Failure(TooFewLower(p.minLower))
    else if p.minDigits > 0 && Count(value, DigitChars) < p.minDigits then Failure(TooFewDigits(p.minDigits))
    else if p.minSpecial > 0 && Count(value, SpecialChars) < p.minSpecial then Failure(TooFewSpecial(p.minSpecial))
    else Success(value)
  }

  /** Under the default policy, "P@ssw0rd" (the schema's own example) is accepted. */
  lemma ExamplePasswordAccepted()
    ensures ValidatePassword(DefaultPolicy, "P@ssw0rd") == Success("P@ssw0rd")
  {
    var s := "P@ssw0rd";
    // One witness per class makes each count non-zero.
    assert InClass(s[0], UpperChars) && InClass(s[1], SpecialChars);
    assert InClass(s[2], LowerChars) && InClass(s[5], DigitChars);
  }

  // The messages of the name and username checks.
  const NoSpace: string := "must contain a space"
  const HasSpace: string := "must not contain a space"
  const TooShortText: string := "length must be greater than 5"
  const NameTooLong: string := "length must be less than 128"
  const UsernameTooLong: string := "length must be less than 64"

  /** `UserBase.name_must_contain_space`: a space, 5..128 characters, returned title-cased. */
  function ValidateName(value: string): (r: Result<string, string>)
    ensures r.Success? <==> ' ' in value && 5 <= |value| <= 128
    ensures r.Success? ==> r.value == Title(value)
    ensures ' ' !in value ==> r == Failure(NoSpace)
    ensures ' ' in value && |value| < 5 ==> r == Failure(TooShortText)
    ensures ' ' in value && |value| > 128 ==> r == Failure(NameTooLong)
  {
    if ' ' !in value then Failure(NoSpace)
    else if |value| < 5 then Failure(TooShortText)
    else if |value| > 128 then Failure(NameTooLong)
    else Success(Title(value))
  }

  /** `UserBase.username_must_contain_space`: no space, 5..64 characters, returned lower-cased. */
  function ValidateUsername(value: string): (r: Result<string, string>)
    ensures r.Success? <==> ' ' !in value && 5 <= |value| <= 64
    ensures r.Success? ==> r.value == Lower(value)
    ensures ' ' in value ==> r == Failure(HasSpace)
    ensures ' ' !in value && |value| < 5 ==> r == Failure(TooShortText)
    ensures ' ' !in value && |value| > 64 ==> r == Failure(UsernameTooLong)
  {
    if ' ' in value then Failure(HasSpace)
    else if |value| < 5 then Failure(TooShortText)
    else if |value| > 64 then Failure(UsernameTooLong)
    else Success(Lower(value))
  }

  /** A normalised name is accepted again and is its own normal form. */
  lemma NameNormalisationIsStable(value: string)
    requires ValidateName(value).Success?
    ensures ValidateName(ValidateName(value).value) == ValidateName(value)
  {
    var t := Title(value);
    var i :| 0 <= i < |value| && value[i] == ' ';
    assert t[i] == ' ';
    TitleIdempotent(value);
  }

  /** A normalised username is accepted again and is its own normal form. */
  lemma UsernameNormalisationIsStable(value: string)
    requires ValidateUsername(value).Success?
    ensures ValidateUsername(ValidateUsername(value).value) == ValidateUsername(value)
  {
    LowerIdempotent(value);
  }
}
