/**
 * The string operations the app relies on: `lowercased()`, `uppercased()`,
 * `trimmingCharacters(in: .whitespaces)` and decimal interpolation of an
 * `Int` ("\(n)"). Case mapping is modelled on ASCII letters only.
 */
module Strings {

  predicate IsUpperAscii(c: char) { 'A' <= c <= 'Z' }

  predicate IsLowerAscii(c: char) { 'a' <= c <= 'z' }

  function LowerChar(c: char): (r: char)
    ensures !IsUpperAscii(r)
    ensures IsUpperAscii(c) ==> r as int == c as int + 32
    ensures !IsUpperAscii(c) ==> r == c
  {
    if IsUpperAscii(c) then (c as int + 32) as char else c
  }

  function UpperChar(c: char): (r: char)
    ensures !IsLowerAscii(r)
    ensures IsLowerAscii(c) ==> r as int == c as int - 32
    ensures !IsLowerAscii(c) ==> r == c
  {
    if IsLowerAscii(c) then (c as int - 32) as char else c
  }

  /** `s.lowercased()`: maps every character, keeps the length. */
  function Lower(s: string): (r: string)
    ensures |r| == |s|
    ensures forall i :: 0 <= i < |s| ==> r[i] == LowerChar(s[i])
  {
    if s == [] then [] else [LowerChar(s[0])] + Lower(s[1..])
  }

  /** `s.uppercased()`: maps every character, keeps the length. */
  function Upper(s: string): (r: string)
    ensures |r| == |s|
    ensures forall i :: 0 <= i < |s| ==> r[i] == UpperChar(s[i])
  {
    if s == [] then [] else [UpperChar(s[0])] + Upper(s[1..])
  }

  /** A lower-cased string holds no upper-case letter, so lower-casing it again changes nothing. */
  lemma LowerIdempotent(s: string)
    ensures Lower(Lower(s)) == Lower(s)
    ensures forall i :: 0 <= i < |s| ==> !IsUpperAscii(Lower(s)[i])
  {
    var l := Lower(s);
    assert forall i :: 0 <= i < |l| ==> Lower(l)[i] == l[i];
  }

  /** A string without upper-case letters is its own lower-cased form. */
  lemma LowerOfLowercase(s: string)
    requires forall i :: 0 <= i < |s| ==> !IsUpperAscii(s[i])
    ensures Lower(s) == s
  {
    assert forall i :: 0 <= i < |s| ==> Lower(s)[i] == s[i];
  }

  /** Comparing lower-cased forms and comparing upper-cased forms agree, character by character. */
  lemma CaseFoldCharAgree(a: char, b: char)
    ensures LowerChar(a) == LowerChar(b) <==> UpperChar(a) == UpperChar(b)
  {
  }

  /** Case-insensitive equality is the same whether it is written with `lowercased()` or `uppercased()`. */
  lemma {:induction false} CaseFoldAgree(a: string, b: string)
    ensures Lower(a) == Lower(b) <==> Upper(a) == Upper(b)
  {
    if |a| == |b| {
      forall i | 0 <= i < |a|
        ensures Lower(a)[i] == Lower(b)[i] <==> Upper(a)[i] == Upper(b)[i]
      {
        CaseFoldCharAgree(a[i], b[i]);
      }
      if Lower(a) == Lower(b) {
        assert forall i :: 0 <= i < |a| ==> Upper(a)[i] == Upper(b)[i];
      }
      if Upper(a) == Upper(b) {
        assert forall i :: 0 <= i < |a| ==> Lower(a)[i] == Lower(b)[i];
      }
    }
  }

  /** The upper-cased form of any string contains no lower-case ASCII letter. */
  lemma UpperHasNoLowerLetter(s: string, i: nat)
    requires i < |s|
    ensures !IsLowerAscii(Upper(s)[i])
  {
  }

  // ----- trimmingCharacters(in: .whitespaces) -----

  /** Members of `CharacterSet.whitespaces` that the model knows: space and tab. */
  predicate IsHorizontalSpace(c: char) { c == ' ' || c == '\t' }

  predicate IsBlank(s: string) { forall i :: 0 <= i < |s| ==> IsHorizontalSpace(s[i]) }

  /** How many spaces and tabs `s` starts with. */
  function LeadingBlanks(s: string): (k: nat)
    ensures k <= |s| && IsBlank(s[..k])
    ensures k < |s| ==> !IsHorizontalSpace(s[k])
  {
    if s != [] && IsHorizontalSpace(s[0]) then
      var k := LeadingBlanks(s[1..]);
      assert forall j :: 1 <= j < k + 1 ==> s[j] == s[1..][..k][j - 1];
      k + 1
    else 0
  }

  /** How many spaces and tabs `s` ends with. */
  function TrailingBlanks(s: string): (m: nat)
    ensures m <= |s| && IsBlank(s[|s| - m..])
    ensures m < |s| ==> !IsHorizontalSpace(s[|s| - m - 1])
  {
    if s != [] && IsHorizontalSpace(s[|s| - 1]) then
      var m := TrailingBlanks(s[..|s| - 1]);
      assert forall j :: |s| - m - 1 <= j < |s| - 1 ==> s[j] == s[..|s| - 1][j];
      m + 1
    else 0
  }

  /**
   * `s.trimmingCharacters(in: .whitespaces)`: the middle of `s` from its
   * first to its last non-blank character; only blanks at the two ends are
   * removed.
   */
  function Trim(s: string): (r: string)
    ensures |r| <= |s|
    ensures r == [] || (!IsHorizontalSpace(r[0]) && !IsHorizontalSpace(r[|r| - 1]))
    ensures var k := LeadingBlanks(s);
      && k + |r| <= |s| && r == s[k..k + |r|]
      && IsBlank(s[..k]) && IsBlank(s[k + |r|..])
  {
    var k := LeadingBlanks(s);
    var m := TrailingBlanks(s[k..]);
    var r := s[k..|s| - m];
    assert s[k..][|s| - k - m..] == s[k + |r|..];
    assert r != [] ==> r[0] == s[k] && r[|r| - 1] == s[k..][|s| - k - m - 1];
    r
  }

  /** Trimming leaves nothing exactly when the string is all spaces and tabs. */
  lemma TrimEmptyIffBlank(s: string)
    ensures Trim(s) == [] <==> IsBlank(s)
  {
    var k := LeadingBlanks(s);
    if Trim(s) == [] {
      assert k == |s| && s[..k] == s;
    } else {
      assert s[k] == Trim(s)[0];
    }
  }

  // ----- decimal rendering of an Int -----

  predicate IsDigit(c: char) { '0' <= c <= '9' }

  predicate AllDigits(s: string) { forall i :: 0 <= i < |s| ==> IsDigit(s[i]) }

  function DigitChar(d: nat): (c: char)
    requires d < 10
    ensures IsDigit(c) && c as int - '0' as int == d
  {
    ('0' as int + d) as char
  }

  /** Decimal digits of `n`, most significant first, without leading zeros. */
  function NatToString(n: nat): (r: string)
    ensures |r| >= 1 && AllDigits(r)
    ensures |r| > 1 ==> r[0] != '0'
    ensures n < 10 <==> |r| == 1
  {
    if n < 10 then [DigitChar(n)] else NatToString(n / 10) + [DigitChar(n % 10)]
  }

  /** `"\(i)"` for a Swift `Int`. */
  function IntToString(i: int): (r: string)
    ensures r != []
    ensures i < 0 <==> r[0] == '-'
    ensures var k := if i < 0 then 1 else 0;
      && |r| > k && AllDigits(r[k..])
      && DigitsValue(r[k..]) == (if i < 0 then -i else i)
      && (|r| - k > 1 ==> r[k] != '0')
  {
    if i < 0 then
      var digits := NatToString(-i);
      NatToStringRoundTrip(-i);
      assert ("-" + digits)[1..] == digits;
      "-" + digits
    else
      NatToStringRoundTrip(i);
      assert NatToString(i)[0..] == NatToString(i);
      NatToString(i)
  }

  /** The number a string of decimal digits denotes. */
  function DigitsValue(s: string): nat
    requires AllDigits(s)
  {
    if s == [] then 0 else DigitsValue(s[..|s| - 1]) * 10 + (s[|s| - 1] as int - '0' as int)
  }

  /** Reading the rendered digits back gives the number. */
  lemma {:induction false} NatToStringRoundTrip(n: nat)
    ensures DigitsValue(NatToString(n)) == n
  {
    if n >= 10 {
      NatToStringRoundTrip(n / 10);
      var s := NatToString(n);
      assert s[..|s| - 1] == NatToString(n / 10);
    }
  }

  /** Different integers are rendered as different strings. */
  lemma IntToStringInjective(a: int, b: int)
    requires IntToString(a) == IntToString(b)
    ensures a == b
  {
    if a < 0 {
      assert b < 0;
      var sa := NatToString(-a);
      var sb := NatToString(-b);
      assert IntToString(a)[1..] == sa;
      assert IntToString(b)[1..] == sb;
      NatToStringRoundTrip(-a);
      NatToStringRoundTrip(-b);
    } else {
      assert b >= 0;
      NatToStringRoundTrip(a);
      NatToStringRoundTrip(b);
    }
  }
}
