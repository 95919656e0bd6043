/**
 * The parts of Python's `str` that the core relies on, restricted to ASCII:
 * the `string` module's character constants, `isupper`/`islower`/`isdigit`/`isalnum`,
 * `lower()`, `title()`, `capitalize()`, `c * n`, `startswith` and `split(" ")`.
 */
module Text {

  /** `n` consecutive code points starting at `first`. */
  function CharRange(first: char, n: nat): (r: string)
    requires first as int + n <= 128
    ensures |r| == n
    ensures forall i :: 0 <= i < n ==> r[i] == (first as int + i) as char
  {
    seq(n, i requires 0 <= i < n => (first as int + i) as char)
  }

  const Digits: string := CharRange('0', 10)
  const AsciiUppercase: string := CharRange('A', 26)
  const AsciiLowercase: string := CharRange('a', 26)
  const AsciiLetters: string := AsciiLowercase + AsciiUppercase
  /** The 32 ASCII punctuation marks, in code-point order. */
  const Punctuation: string := CharRange('!', 15) + CharRange(':', 7) + CharRange('[', 6) + CharRange('{', 4)

  predicate IsUpper(c: char) { 'A' <= c <= 'Z' }
  predicate IsLower(c: char) { 'a' <= c <= 'z' }
  predicate IsDigit(c: char) { '0' <= c <= '9' }
  predicate IsLetter(c: char) { IsUpper(c) || IsLower(c) }
  predicate IsAlnum(c: char) { IsLetter(c) || IsDigit(c) }
  predicate IsPunctuation(c: char) {
    ('!' <= c <= '/') || (':' <= c <= '@') || ('[' <= c <= '`') || ('{' <= c <= '~')
  }

  /** The constants are the ones of Python's `string` module. */
  lemma LettersAndDigitsAreLiterals()
    ensures Digits == "0123456789"
    ensures AsciiUppercase == "ABCDEFGHIJKLMNOPQRSTUVWXYZ"
    ensures AsciiLowercase == "abcdefghijklmnopqrstuvwxyz"
  {
  }

  lemma PunctuationIsLiteral()
    ensures Punctuation == "!\"#$%&'()*+,-./:;<=>?@[\\]^_`{|}~"
  {
    assert CharRange('!', 15) == "!\"#$%&'()*+,-./";
    assert CharRange(':', 7) == ":;<=>?@";
    assert CharRange('[', 6) == "[\\]^_`";
    assert CharRange('{', 4) == "{|}~";
  }

  /** Membership in a constant is the matching class predicate. */
  lemma ConstantsAreClasses(c: char)
    ensures c in Digits <==> IsDigit(c)
    ensures c in AsciiUppercase <==> IsUpper(c)
    ensures c in AsciiLowercase <==> IsLower(c)
    ensures c in AsciiLetters <==> IsLetter(c)
    ensures c in Punctuation <==> IsPunctuation(c)
  {
    if IsDigit(c) { assert Digits[c as int - '0' as int] == c; }
    if IsUpper(c) { assert AsciiUppercase[c as int - 'A' as int] == c; }
    if IsLower(c) { assert AsciiLowercase[c as int - 'a' as int] == c; }
    assert c in AsciiLetters <==> c in AsciiLowercase || c in AsciiUppercase;
    var p0, p1, p2, p3 := CharRange('!', 15), CharRange(':', 7), CharRange('[', 6), CharRange('{', 4);
    assert c in Punctuation <==> c in p0 || c in p1 || c in p2 || c in p3;
    if '!' <= c <= '/' { assert p0[c as int - '!' as int] == c; }
    if ':' <= c <= '@' { assert p1[c as int - ':' as int] == c; }
    if '[' <= c <= '`' { assert p2[c as int - '[' as int] == c; }
    if '{' <= c <= '~' { assert p3[c as int - '{' as int] == c; }
  }

  /** Punctuation marks are not alphanumeric, so they count as special characters. */
  lemma PunctuationIsSpecial(c: char)
    requires IsPunctuation(c)
    ensures !IsAlnum(c)
  {
  }

  function ToUpper(c: char): (r: char)
    ensures IsLetter(r) <==> IsLetter(c)
    ensures IsLetter(c) ==> IsUpper(r)
    ensures !IsLower(c) ==> r == c
  {
    if IsLower(c) then (c as int - 32) as char else c
  }

  function ToLower(c: char): (r: char)
    ensures IsLetter(r) <==> IsLetter(c)
    ensures IsLetter(c) ==> IsLower(r)
    ensures !IsUpper(c) ==> r == c
  {
    if IsUpper(c) then (c as int + 32) as char else c
  }

  lemma CaseMapsAbsorb(c: char)
    ensures ToUpper(ToUpper(c)) == ToUpper(c) && ToUpper(ToLower(c)) == ToUpper(c)
    ensures ToLower(ToLower(c)) == ToLower(c) && ToLower(ToUpper(c)) == ToLower(c)
  {
  }

  /** Python's `str.lower()`. */
  function Lower(s: string): (r: string)
    ensures |r| == |s|
    ensures forall i :: 0 <= i < |s| ==> r[i] == ToLower(s[i])
  {
    seq(|s|, i requires 0 <= i < |s| => ToLower(s[i]))
  }

  lemma {:induction false} LowerIdempotent(s: string)
    ensures Lower(Lower(s)) == Lower(s)
  {
    forall i | 0 <= i < |s| ensures Lower(Lower(s))[i] == Lower(s)[i] {
      CaseMapsAbsorb(s[i]);
    }
  }

  /**
   * Python's `str.title()` on ASCII: a letter that follows a letter is lowered, any other letter
   * is raised; `afterCased` says whether the character before `s` was a letter.
   */
  function TitleFrom(s: string, afterCased: bool): (r: string)
    ensures |r| == |s|
    ensures forall i :: 0 <= i < |s| ==> (IsLetter(r[i]) <==> IsLetter(s[i]))
    ensures forall i :: 0 <= i < |s| && !IsLetter(s[i]) ==> r[i] == s[i]
  {
    if s == [] then []
    else if IsLetter(s[0]) then [if afterCased then ToLower(s[0]) else ToUpper(s[0])] + TitleFrom(s[1..], true)
    else [s[0]] + TitleFrom(s[1..], false)
  }

  function Title(s: string): string {
    TitleFrom(s, false)
  }

  lemma {:induction false} TitleFromIdempotent(s: string, afterCased: bool)
    ensures TitleFrom(TitleFrom(s, afterCased), afterCased) == TitleFrom(s, afterCased)
  {
    if s != [] {
      var t := TitleFrom(s, afterCased);
      CaseMapsAbsorb(s[0]);
      TitleFromIdempotent(s[1..], IsLetter(s[0]));
      assert t[1..] == TitleFrom(s[1..], IsLetter(s[0]));
    }
  }

  /** Title-casing again changes nothing. */
  lemma TitleIdempotent(s: string)
    ensures Title(Title(s)) == Title(s)
  {
    TitleFromIdempotent(s, false);
  }

  /** `c * n`: `n` copies of `c`, empty when `n <= 0`. */
  function Repeat(c: char, n: int): (r: string)
    ensures |r| == if n < 0 then 0 else n
    ensures forall i :: 0 <= i < |r| ==> r[i] == c
    decreases n
  {
    if n <= 0 then [] else [c] + Repeat(c, n - 1)
  }

  predicate StartsWith(s: string, prefix: string) {
    |prefix| <= |s| && s[..|prefix|] == prefix
  }

  /** Index of the first space of `s`, or `|s|` when it has none. */
  function SpaceIndex(s: string): (k: nat)
    ensures k <= |s|
    ensures k < |s| ==> s[k] == ' '
    ensures forall i :: 0 <= i < k ==> s[i] != ' '
  {
    if s == [] || s[0] == ' ' then 0 else 1 + SpaceIndex(s[1..])
  }

  /** `s.split(" ")[0]`. */
  function FirstField(s: string): string {
    s[..SpaceIndex(s)]
  }

  /** `s.split(" ")[1]`, which exists when `s` holds a space. */
  function SecondField(s: string): string
    requires ' ' in s
  {
    FirstField(s[SpaceIndex(s) + 1..])
  }

  /** A field is the text up to (not including) the first space, so a spaceless text is its own field. */
  lemma FirstFieldOfSpaceless(t: string)
    requires ' ' !in t
    ensures FirstField(t) == t
  {
    assert SpaceIndex(t) == |t|;
  }

  /** A word after a six-letter scheme and a space is the second field. */
  lemma {:induction false} SecondFieldAfterScheme(scheme: string, t: string)
    requires |scheme| == 6 && ' ' !in scheme
    ensures ' ' in scheme + " " + t
    ensures SecondField(scheme + " " + t) == FirstField(t)
  {
    var s := scheme + " " + t;
    assert s[6] == ' ';
    assert forall i :: 0 <= i < 6 ==> s[i] == scheme[i];
    assert SpaceIndex(s) == 6 by {
      assert s[1..][1..][1..][1..][1..][1..] == s[6..];
    }
    assert s[7..] == t;
  }
}
