/**
 * ASCII string helpers shared by the model: letter and digit classes,
 * Python's str.upper(), str.strip(), str.startswith(), the `in` test on
 * strings, and decimal formatting of naturals with `{n:02d}` padding.
 * Non-ASCII characters are never letters, digits or whitespace here.
 */
module Text {

  predicate IsLetter(c: char) {
    ('A' <= c <= 'Z') || ('a' <= c <= 'z')
  }

  predicate IsDigit(c: char) {
    '0' <= c <= '9'
  }

  predicate AllLetters(s: string) {
    forall i :: 0 <= i < |s| ==> IsLetter(s[i])
  }

  predicate AllDigits(s: string) {
    forall i :: 0 <= i < |s| ==> IsDigit(s[i])
  }

  /** Python's whitespace among ASCII characters (what str.strip() removes). */
  predicate IsSpace(c: char) {
    c == ' ' || ('\t' <= c <= '\r') || ('\U{1c}' <= c <= '\U{1f}')
  }

  function UpperChar(c: char): (r: char)
    ensures IsLetter(c) <==> IsLetter(r)
    ensures 'A' <= r <= 'Z' || !IsLetter(c)
    ensures !('a' <= c <= 'z') ==> r == c
  {
    if 'a' <= c <= 'z' then (c as int - 32) as char else c
  }

  /** str.upper() restricted to ASCII. */
  function Upper(s: string): (r: string)
    ensures |r| == |s|
    ensures forall i :: 0 <= i < |s| ==> r[i] == UpperChar(s[i])
  {
    if s == [] then [] else [UpperChar(s[0])] + Upper(s[1..])
  }

  function StripLeft(s: string): (r: string)
    ensures |r| <= |s| && r == s[|s| - |r|..]
    ensures r == [] || !IsSpace(r[0])
  {
    if s != [] && IsSpace(s[0]) then StripLeft(s[1..]) else s
  }

  function StripRight(s: string): (r: string)
    ensures |r| <= |s| && r == s[..|r|]
    ensures r == [] || !IsSpace(r[|r| - 1])
  {
    if s != [] && IsSpace(s[|s| - 1]) then StripRight(s[..|s| - 1]) else s
  }

  /** str.strip() with no argument. */
  function Strip(s: string): string {
    StripRight(StripLeft(s))
  }

  /** Text with no lower-case letter is its own upper-case form. */
  lemma UpperFixed(s: string)
    requires forall i :: 0 <= i < |s| ==> !('a' <= s[i] <= 'z')
    ensures Upper(s) == s
  {
  }

  /** Text that neither starts nor ends with whitespace is its own strip. */
  lemma StripFixed(s: string)
    requires s != [] && !IsSpace(s[0]) && !IsSpace(s[|s| - 1])
    ensures Strip(s) == s
  {
    assert StripLeft(s) == s;
  }

  /** A single blank on each side of such text is stripped away. */
  lemma StripPadded(s: string)
    requires s != [] && !IsSpace(s[0]) && !IsSpace(s[|s| - 1])
    ensures Strip([' '] + s + [' ']) == s
  {
    var padded := [' '] + s + [' '];
    assert padded[1..] == s + [' '];
    assert StripLeft(padded) == s + [' '];
    assert (s + [' '])[..|s|] == s;
    assert StripRight(s + [' ']) == StripRight(s);
  }

  predicate StartsWith(s: string, prefix: string) {
    |prefix| <= |s| && s[..|prefix|] == prefix
  }

  /** Python's `sub in s` on strings. */
  predicate Contains(s: string, sub: string) {
    StartsWith(s, sub) || (s != [] && Contains(s[1..], sub))
  }

  /** The text of `s` before its first '.', i.e. `s.split(".")[0]`. */
  function FirstSegment(s: string): (r: string)
    ensures |r| <= |s| && r == s[..|r|]
    ensures '.' !in r
    ensures |r| < |s| ==> s[|r|] == '.'
  {
    if s == [] || s[0] == '.' then [] else [s[0]] + FirstSegment(s[1..])
  }

  function DigitChar(d: nat): (c: char)
    requires d < 10
    ensures IsDigit(c)
  {
    ('0' as int + d) as char
  }

  function DigitValue(c: char): nat
    requires IsDigit(c)
  {
    c as int - '0' as int
  }

  /** The value of a string of decimal digits, as Python's int() reads it. */
  function DigitsValue(s: string): nat
    requires AllDigits(s)
  {
    if s == [] then 0 else DigitsValue(s[..|s| - 1]) * 10 + DigitValue(s[|s| - 1])
  }

  /** The shortest decimal representation of `n` (str(n)). */
  function Decimal(n: nat): (s: string)
    ensures |s| >= 1 && AllDigits(s)
    ensures n >= 10 ==> |s| >= 2
    ensures n >= 1 ==> s[0] != '0'
  {
    if n < 10 then [DigitChar(n)] else Decimal(n / 10) + [DigitChar(n % 10)]
  }

  /** A digit string as f"{n:02d}" writes one: two digits or more, with no leading zero beyond the second place. */
  predicate Padded2(s: string) {
    |s| >= 2 && AllDigits(s) && (|s| > 2 ==> s[0] != '0')
  }

  /** Python's f"{n:02d}": decimal, zero-padded to at least two digits. */
  function Pad2(n: nat): (s: string)
    ensures Padded2(s)
    ensures DigitsValue(s) == n
  {
    DecimalValue(n);
    if n < 10 then LeadingZeroValue(Decimal(n)); "0" + Decimal(n) else Decimal(n)
  }

  lemma {:induction false} DecimalValue(n: nat)
    ensures DigitsValue(Decimal(n)) == n
  {
    if n >= 10 {
      var s := Decimal(n);
      assert s[..|s| - 1] == Decimal(n / 10);
      DecimalValue(n / 10);
    }
  }

  lemma {:induction false} LeadingZeroValue(s: string)
    requires AllDigits(s)
    ensures AllDigits("0" + s) && DigitsValue("0" + s) == DigitsValue(s)
  {
    var t := "0" + s;
    assert AllDigits(t);
    if s != [] {
      assert t[..|t| - 1] == "0" + s[..|s| - 1];
      LeadingZeroValue(s[..|s| - 1]);
    }
  }

  function Pow10(k: nat): (p: nat)
    ensures p >= 1
  {
    if k == 0 then 1 else 10 * Pow10(k - 1)
  }

  lemma {:induction false} Pow10Monotone(j: nat, k: nat)
    requires j <= k
    ensures Pow10(j) <= Pow10(k)
  {
    if j < k {
      Pow10Monotone(j, k - 1);
    }
  }

  /** A string of k digits reads as less than 10^k. */
  lemma {:induction false} DigitsBelow(s: string)
    requires AllDigits(s)
    ensures DigitsValue(s) < Pow10(|s|)
  {
    if s != [] {
      var t := s[..|s| - 1];
      DigitsBelow(t);
      assert DigitsValue(t) + 1 <= Pow10(|t|);
      assert DigitsValue(s) <= (Pow10(|t|) - 1) * 10 + 9;
    }
  }

  /** A string of k digits that does not start with '0' reads as at least 10^(k-1). */
  lemma {:induction false} LeadingDigitFloor(s: string)
    requires AllDigits(s) && |s| >= 1 && s[0] != '0'
    ensures DigitsValue(s) >= Pow10(|s| - 1)
  {
    if |s| > 1 {
      var t := s[..|s| - 1];
      assert t[0] == s[0];
      LeadingDigitFloor(t);
    }
  }

  /** Two digit strings of the same length that read as the same number are the same string. */
  lemma {:induction false} SameLengthSameDigits(a: string, b: string)
    requires AllDigits(a) && AllDigits(b) && |a| == |b|
    requires DigitsValue(a) == DigitsValue(b)
    ensures a == b
  {
    if a != [] {
      var ta, tb := a[..|a| - 1], b[..|b| - 1];
      var x, y := DigitsValue(ta), DigitsValue(tb);
      var d, e := DigitValue(a[|a| - 1]), DigitValue(b[|b| - 1]);
      assert x * 10 + d == y * 10 + e;
      assert d < 10 && e < 10;
      assert x == y && d == e;
      assert a[|a| - 1] == b[|b| - 1];
      SameLengthSameDigits(ta, tb);
      assert a == ta + [a[|a| - 1]];
      assert b == tb + [b[|b| - 1]];
    }
  }

  /**
   * f"{n:02d}" is the only padded digit string that reads as n: any string
   * of the Padded2 form is Pad2 of its own value.
   */
  lemma {:induction false} Padded2Unique(s: string)
    requires Padded2(s)
    ensures s == Pad2(DigitsValue(s))
  {
    var t := Pad2(DigitsValue(s));
    if |s| < |t| {
      DigitsBelow(s);
      LeadingDigitFloor(t);
      Pow10Monotone(|s|, |t| - 1);
    } else if |t| < |s| {
      DigitsBelow(t);
      LeadingDigitFloor(s);
      Pow10Monotone(|t|, |s| - 1);
    } else {
      SameLengthSameDigits(s, t);
    }
  }
}
