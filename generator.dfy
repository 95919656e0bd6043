/**
 * `RandonGenerator.name` and `RandonGenerator.password`. Every random draw is a
 * parameter; its `requires` says which character class the draw comes from.
 */
module Generator {
  import opened Wrappers
  import opened Text
  import opened UsersSettings
  import opened UsersSchema

  /** Python's `str.capitalize()` on ASCII: first character raised, the rest lowered. */
  function Capitalize(s: string): (r: string)
    ensures |r| == |s|
  {
    if s == [] then [] else [ToUpper(s[0])] + Lower(s[1..])
  }

  /** One word of a name: eight copies of the drawn letter, capitalised when asked. */
  function Word(letter: char, firstCaps: bool): (w: string)
    ensures |w| == 8
  {
    if firstCaps then Capitalize(Repeat(letter, 8)) else Repeat(letter, 8)
  }

  /** The words of `letters`, each followed by a single space except the last. */
  function Joined(letters: seq<char>, firstCaps: bool): (r: string)
    ensures |letters| == 0 ==> r == ""
    ensures |letters| > 0 ==> |r| == 9 * |letters| - 1
    ensures |letters| >= 2 ==> ' ' in r
  {
    if |letters| == 0 then ""
    else if |letters| == 1 then Word(letters[0], firstCaps)
    else
      var w := Word(letters[|letters| - 1], firstCaps);
      var r := Joined(letters[..|letters| - 1], firstCaps) + " " + w;
      assert r[|r| - 9] == ' ';
      r
  }

  /** The first `i + 1` words are the first `i` words, a space, and word `i`. */
  lemma JoinedOneMore(letters: seq<char>, i: nat, firstCaps: bool)
    requires i < |letters|
    ensures Joined(letters[..i + 1], firstCaps)
            == if i == 0 then Word(letters[0], firstCaps) else Joined(letters[..i], firstCaps) + " " + Word(letters[i], firstCaps)
  {
    assert letters[..i + 1][..i] == letters[..i];
  }

  /**
   * `name(words, first_caps)`; `letters[i]` is the `random.choice(string.ascii_letters)`
   * of the i-th turn of the loop.
   */
  method Name(words: int, firstCaps: bool, letters: seq<char>) returns (name: string)
    requires |letters| == if words < 0 then 0 else words
    requires forall i :: 0 <= i < |letters| ==> IsLetter(letters[i])
    ensures name == Joined(letters, firstCaps)
    ensures |name| == if words <= 0 then 0 else 9 * words - 1
  {
    name := "";
    var i := 0;
    while i < words
      invariant 0 <= i <= |letters|
      invariant i == 0 ==> name == ""
      invariant 0 < i < words ==> name == Joined(letters[..i], firstCaps) + " "
      invariant 0 < i && i == words ==> name == Joined(letters[..i], firstCaps)
    {
      var n := Repeat(letters[i], 8);
      if firstCaps {
        n := Capitalize(n);
      }
      assert n == Word(letters[i], firstCaps);
      JoinedOneMore(letters, i, firstCaps);
      ghost var joined := Joined(letters[..i + 1], firstCaps);
      name := name + n;
      assert name == joined;
      if i != words - 1 {
        name := name + " ";
        assert name == joined + " ";
      } else {
        assert name == joined;
      }
      i := i + 1;
    }
    assert letters[..i] == letters;
  }

  lemma {:induction false} TitleFromConcat(a: string, b: string, afterCased: bool)
    ensures TitleFrom(a + b, afterCased)
            == TitleFrom(a, afterCased) + TitleFrom(b, if a == [] then afterCased else IsLetter(a[|a| - 1]))
  {
    if a == [] {
      assert a + b == b;
    } else {
      assert (a + b)[1..] == a[1..] + b;
      TitleFromConcat(a[1..], b, IsLetter(a[0]));
    }
  }

  /** A capitalised word is already title-cased. */
  lemma {:induction false} CapitalisedWordIsTitled(letter: char)
    requires IsLetter(letter)
    ensures TitleFrom(Word(letter, true), false) == Word(letter, true)
  {
    var w := Word(letter, true);
    CaseMapsAbsorb(letter);
    var rest := Lower(Repeat(letter, 8)[1..]);
    assert w == [ToUpper(letter)] + rest;
    assert w[1..] == rest;
    assert forall i :: 0 <= i < |rest| ==> rest[i] == ToLower(letter);
    LowerRunIsTitled(rest, letter);
  }

  lemma {:induction false} LowerRunIsTitled(s: string, letter: char)
    requires IsLetter(letter)
    requires forall i :: 0 <= i < |s| ==> s[i] == ToLower(letter)
    ensures TitleFrom(s, true) == s
  {
    if s != [] {
      CaseMapsAbsorb(letter);
      LowerRunIsTitled(s[1..], letter);
    }
  }

  /** A name generated with `first_caps` is its own title case, so the name validator keeps it as it is. */
  lemma {:induction false} CapitalisedNameIsTitled(letters: seq<char>)
    requires forall i :: 0 <= i < |letters| ==> IsLetter(letters[i])
    ensures Title(Joined(letters, true)) == Joined(letters, true)
  {
    if |letters| == 1 {
      CapitalisedWordIsTitled(letters[0]);
    } else if |letters| > 1 {
      var init := letters[..|letters| - 1];
      var w := Word(letters[|letters| - 1], true);
      var prefix := Joined(init, true);
      var afterPrefix := IsLetter(prefix[|prefix| - 1]);
      CapitalisedNameIsTitled(init);
      CapitalisedWordIsTitled(letters[|letters| - 1]);
      TitleFromConcat(prefix, " " + w, false);
      TitleFromConcat(" ", w, afterPrefix);
      assert TitleFrom(" ", afterPrefix) == " ";
      assert Joined(letters, true) == prefix + (" " + w);
    }
  }

  /** A generated name of 2 to 14 words passes `UserBase`'s name check unchanged when capitalised. */
  lemma GeneratedNameAccepted(letters: seq<char>, firstCaps: bool)
    requires 2 <= |letters| <= 14
    requires forall i :: 0 <= i < |letters| ==> IsLetter(letters[i])
    ensures ValidateName(Joined(letters, firstCaps)).Success?
    ensures firstCaps ==> ValidateName(Joined(letters, firstCaps)) == Success(Joined(letters, firstCaps))
  {
    if firstCaps {
      CapitalisedNameIsTitled(letters);
    }
  }

  /** `char_set`: the classes asked for, in the order digits, punctuation, upper case, lower case. */
  function CharSet(numbers: int, special: int, upper: int, lower: int): string {
    WithRun(WithRun(WithRun(WithRun("", numbers, Digits), special, Punctuation), upper, AsciiUppercase),
            lower, AsciiLowercase)
  }

  /** `pool` with `chars` appended when their class is asked for. */
  function WithRun(pool: string, count: int, chars: string): string {
    if count > 0 then pool + chars else pool
  }

  /** Only enabled classes are in the pool. */
  lemma CharSetClasses(numbers: int, special: int, upper: int, lower: int, c: char)
    requires c in CharSet(numbers, special, upper, lower)
    ensures (numbers > 0 && IsDigit(c)) || (special > 0 && IsPunctuation(c))
            || (upper > 0 && IsUpper(c)) || (lower > 0 && IsLower(c))
  {
    ConstantsAreClasses(c);
  }

  /** The prefix: `numbers` copies of one digit, then the punctuation, upper-case and lower-case runs. */
  function Prefix(numbers: int, special: int, upper: int, lower: int, digit: char, mark: char, up: char, low: char)
    : string
  {
    Repeat(digit, numbers) + Repeat(mark, special) + Repeat(up, upper) + Repeat(low, lower)
  }

  /** The first `k` characters of the pool in the shuffled order. */
  function Drawn(pool: string, order: seq<nat>, k: nat): (r: string)
    requires k <= |order| && forall i :: 0 <= i < k ==> order[i] < |pool|
    ensures |r| == k
  {
    if k == 0 then [] else Drawn(pool, order, k - 1) + [pool[order[k - 1]]]
  }

  /** The `j`-th drawn character is the pool's character at the `j`-th shuffled position. */
  lemma {:induction false} DrawnAt(pool: string, order: seq<nat>, k: nat, j: nat)
    requires k <= |order| && forall i :: 0 <= i < k ==> order[i] < |pool|
    requires j < k
    ensures Drawn(pool, order, k)[j] == pool[order[j]]
  {
    if j < k - 1 {
      DrawnAt(pool, order, k - 1, j);
    }
  }

  /** `"".join(random.sample(pool, k))` for `k` no larger than the pool; `order` is the shuffle. */
  method Sample(pool: string, order: seq<nat>, k: nat) returns (s: string)
    requires IsSampleOrder(order, |pool|) && k <= |pool|
    ensures s == Drawn(pool, order, k)
  {
    s := "";
    var j := 0;
    while j < k
      invariant 0 <= j <= k
      invariant s == Drawn(pool, order, j)
    {
      s := s + [pool[order[j]]];
      j := j + 1;
    }
  }

  /** `order` is a shuffle of the positions of a pool of `n` characters; `random.sample` keeps its first k. */
  predicate IsSampleOrder(order: seq<nat>, n: nat) {
    && |order| == n
    && (forall i :: 0 <= i < n ==> order[i] < n)
    && (forall i, j :: 0 <= i < j < n ==> order[i] != order[j])
  }

  const SumTooLarge: string :=
    "The sum of the numbers, special, uper and lower must be less than the size of the password."
  const NegativeCount: string := "The numbers, special, uper and lower must be greater than or equal to zero."
  /** `random.sample`'s own `ValueError` when more characters are asked for than the pool holds. */
  const SampleTooLarge: string := "Sample larger than population or is negative"

  /**
   * The four runs of `password`: each class asked for adds its characters to `char_set` and
   * that many copies of its drawn character to the password.
   */
  method Runs(numbers: int, special: int, upper: int, lower: int, digit: char, mark: char, up: char, low: char)
    returns (charSet: string, p: string)
    ensures charSet == CharSet(numbers, special, upper, lower)
    ensures p == Prefix(numbers, special, upper, lower, digit, mark, up, low)
  {
    charSet := "";
    p := "";
    if numbers > 0 {
      charSet := charSet + Digits;
      p := p + Repeat(digit, numbers);
    }
    assert charSet == WithRun("", numbers, Digits) && p == Repeat(digit, numbers);
    ghost var c1, p1 := charSet, p;
    if special > 0 {
      charSet := charSet + Punctuation;
      p := p + Repeat(mark, special);
    }
    assert charSet == WithRun(c1, special, Punctuation) && p == p1 + Repeat(mark, special);
    ghost var c2, p2 := charSet, p;
    if upper > 0 {
      charSet := charSet + AsciiUppercase;
      p := p + Repeat(up, upper);
    }
    assert charSet == WithRun(c2, upper, AsciiUppercase) && p == p2 + Repeat(up, upper);
    ghost var c3, p3 := charSet, p;
    if lower > 0 {
      charSet := charSet + AsciiLowercase;
      p := p + Repeat(low, lower);
    }
    assert charSet == WithRun(c3, lower, AsciiLowercase) && p == p3 + Repeat(low, lower);
  }

  /**
   * `password(size, numbers, special, uper, lower)`. `digit`, `mark`, `up` and `low` are the
   * `random.choice` draws of the four runs; `order` drives `random.sample` over `char_set`.
   */
  method Password(size: int, numbers: int, special: int, upper: int, lower: int,
                  digit: char, mark: char, up: char, low: char, order: seq<nat>)
    returns (r: Result<string, string>)
    requires IsDigit(digit) && IsPunctuation(mark) && IsUpper(up) && IsLower(low)
    requires IsSampleOrder(order, |CharSet(numbers, special, upper, lower)|)
    ensures numbers + special + upper + lower > size ==> r == Failure(SumTooLarge)
    ensures numbers + special + upper + lower <= size && (numbers < 0 || special < 0 || upper < 0 || lower < 0)
            ==> r == Failure(NegativeCount)
    ensures r.Success? <==> && numbers >= 0 && special >= 0 && upper >= 0 && lower >= 0
                            && 0 <= size - (numbers + special + upper + lower) <= |CharSet(numbers, special, upper, lower)|
    ensures r.Failure? && numbers + special + upper + lower <= size && numbers >= 0 && special >= 0
            && upper >= 0 && lower >= 0
            ==> r == Failure(SampleTooLarge)
    ensures r.Success? ==>
              r.value == Prefix(numbers, special, upper, lower, digit, mark, up, low)
                         + Drawn(CharSet(numbers, special, upper, lower), order, size - (numbers + special + upper + lower))
  {
    if numbers + special + upper + lower > size {
      return Failure(SumTooLarge);
    }
    if numbers < 0 || special < 0 || upper < 0 || lower < 0 {
      return Failure(NegativeCount);
    }
    var charSet, p := Runs(numbers, special, upper, lower, digit, mark, up, low);
    assert |p| == numbers + special + upper + lower;
    var k := size - |p|;
    if k > |charSet| {
      return Failure(SampleTooLarge);
    }
    var padding := Sample(charSet, order, k);
    assert padding == Drawn(CharSet(numbers, special, upper, lower), order, size - (numbers + special + upper + lower));
    p := p + padding;
    r := Success(p);
  }

  /**
   * A password `password` returns has exactly `size` characters, and every character after the
   * prefix comes from a class that was asked for.
   */
  lemma {:induction false} PasswordShape(size: int, numbers: nat, special: nat, upper: nat, lower: nat,
                                         digit: char, mark: char, up: char, low: char, order: seq<nat>)
    requires IsSampleOrder(order, |CharSet(numbers, special, upper, lower)|)
    requires 0 <= size - (numbers + special + upper + lower) <= |CharSet(numbers, special, upper, lower)|
    ensures var sum := numbers + special + upper + lower;
            var pool := CharSet(numbers, special, upper, lower);
            var p := Prefix(numbers, special, upper, lower, digit, mark, up, low) + Drawn(pool, order, size - sum);
            && |p| == size
            && forall j :: sum <= j < size ==> p[j] in pool
  {
    var sum := numbers + special + upper + lower;
    var pool := CharSet(numbers, special, upper, lower);
    var prefix := Prefix(numbers, special, upper, lower, digit, mark, up, low);
    assert |prefix| == sum;
    var p := prefix + Drawn(pool, order, size - sum);
    forall j | sum <= j < size
      ensures p[j] in pool
    {
      DrawnAt(pool, order, size - sum, j - sum);
    }
  }

  /** Every run of the prefix is counted towards its class, so each class appears as often as asked. */
  lemma PrefixCounts(numbers: nat, special: nat, upper: nat, lower: nat,
                     digit: char, mark: char, up: char, low: char, padding: string)
    requires IsDigit(digit) && IsPunctuation(mark) && IsUpper(up) && IsLower(low)
    ensures var s := Prefix(numbers, special, upper, lower, digit, mark, up, low) + padding;
            && Count(s, DigitChars) >= numbers && Count(s, SpecialChars) >= special
            && Count(s, UpperChars) >= upper && Count(s, LowerChars) >= lower
  {
    var d, m, u, l := Repeat(digit, numbers), Repeat(mark, special), Repeat(up, upper), Repeat(low, lower);
    forall k: CharClass
      ensures Count(d + m + u + l + padding, k) >= Count(d, k) + Count(m, k) + Count(u, k) + Count(l, k)
    {
      CountConcat(d + m + u + l, padding, k);
      CountConcat(d + m + u, l, k);
      CountConcat(d + m, u, k);
      CountConcat(d, m, k);
    }
    CountRepeat(digit, numbers, DigitChars);
    CountRepeat(mark, special, SpecialChars);
    CountRepeat(up, upper, UpperChars);
    CountRepeat(low, lower, LowerChars);
  }

  /**
   * A generated password passes every policy whose length window contains `size` and whose
   * per-class minimums do not exceed the requested counts.
   */
  lemma GeneratedPasswordComplies(p: PasswordPolicy, size: int, numbers: nat, special: nat, upper: nat, lower: nat,
                                  digit: char, mark: char, up: char, low: char, padding: string)
    requires IsDigit(digit) && IsPunctuation(mark) && IsUpper(up) && IsLower(low)
    requires numbers + special + upper + lower + |padding| == size
    requires p.minLength <= size <= p.maxLength
    requires p.minDigits <= numbers && p.minSpecial <= special && p.minUpper <= upper && p.minLower <= lower
    ensures var s := Prefix(numbers, special, upper, lower, digit, mark, up, low) + padding;
            ValidatePassword(p, s) == Success(s)
  {
    PrefixCounts(numbers, special, upper, lower, digit, mark, up, low, padding);
  }
}
