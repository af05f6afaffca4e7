/** The two pieces of Python string behaviour the analyzer relies on:
    `str()` of an integer and the whitespace test behind `str.strip()`. */
module Text {

  predicate IsDigit(c: char) {
    '0' <= c <= '9'
  }

  function DigitChar(d: nat): (c: char)
    requires d < 10
    ensures IsDigit(c)
  {
    "0123456789"[d]
  }

  function DigitValue(c: char): nat
    requires IsDigit(c)
  {
    c as int - '0' as int
  }

  /** The decimal digits of a natural number, without leading zeros. */
  function NatDigits(n: nat): (s: string)
    ensures s != []
    ensures forall i :: 0 <= i < |s| ==> IsDigit(s[i])
    decreases n
  {
    if n < 10 then [DigitChar(n)] else NatDigits(n / 10) + [DigitChar(n % 10)]
  }

  /** Python's `str(i)` for an `int`. */
  function Decimal(i: int): (s: string)
    ensures s != []
  {
    if i < 0 then "-" + NatDigits(-i) else NatDigits(i)
  }

  /** Reading a string of digits back as a number. */
  function DigitsValue(s: string): nat
    requires forall i :: 0 <= i < |s| ==> IsDigit(s[i])
  {
    if s == [] then 0 else 10 * DigitsValue(s[..|s| - 1]) + DigitValue(s[|s| - 1])
  }

  /** Reading an optionally signed decimal numeral back as an `int` (Python's `int(s)`
      on the strings `Decimal` produces). */
  function DecimalValue(s: string): int
    requires s != []
    requires s[0] == '-' ==> forall i :: 1 <= i < |s| ==> IsDigit(s[i])
    requires s[0] != '-' ==> forall i :: 0 <= i < |s| ==> IsDigit(s[i])
  {
    if s[0] == '-' then -(DigitsValue(s[1..]) as int) else DigitsValue(s)
  }

  lemma {:induction false} NatDigitsValue(n: nat)
    ensures DigitsValue(NatDigits(n)) == n
    decreases n
  {
    var s := NatDigits(n);
    if n < 10 {
      assert s == [DigitChar(n)];
    } else {
      NatDigitsValue(n / 10);
      assert s[..|s| - 1] == NatDigits(n / 10);
    }
  }

  /** `int(str(i)) == i`. */
  lemma DecimalRoundTrip(i: int)
    ensures var s := Decimal(i);
      && (s[0] == '-' ==> forall k :: 1 <= k < |s| ==> IsDigit(s[k]))
      && (s[0] != '-' ==> forall k :: 0 <= k < |s| ==> IsDigit(s[k]))
      && DecimalValue(s) == i
  {
    var s := Decimal(i);
    if i < 0 {
      assert s[1..] == NatDigits(-i);
      NatDigitsValue(-i);
    } else {
      assert IsDigit(s[0]);
      NatDigitsValue(i);
    }
  }

  /** Distinct integers print differently. */
  lemma DecimalInjective(i: int, j: int)
    requires Decimal(i) == Decimal(j)
    ensures i == j
  {
    DecimalRoundTrip(i);
    DecimalRoundTrip(j);
  }

  /** The characters Python's `str.isspace` accepts, which are the ones
      `str.strip()` removes. */
  predicate IsPythonWhitespace(c: char) {
    || c == ' ' || c == '\t' || c == '\n' || c == '\r'
    || c == '\U{000B}' || c == '\U{000C}'
    || '\U{001C}' <= c <= '\U{001F}'
    || c == '\U{0085}' || c == '\U{00A0}' || c == '\U{1680}'
    || '\U{2000}' <= c <= '\U{200A}'
    || c == '\U{2028}' || c == '\U{2029}' || c == '\U{202F}' || c == '\U{205F}' || c == '\U{3000}'
  }

  /** `not code or not code.strip()`: the code is empty, or whitespace only. */
  predicate Blank(code: string) {
    forall i :: 0 <= i < |code| ==> IsPythonWhitespace(code[i])
  }

  /** `str.lstrip()`: the suffix left after dropping leading whitespace. */
  function StripLeading(s: string): (r: string)
    ensures |r| <= |s| && r == s[|s| - |r|..]
    ensures forall k :: 0 <= k < |s| - |r| ==> IsPythonWhitespace(s[k])
    ensures r == [] || !IsPythonWhitespace(r[0])
  {
    if s != [] && IsPythonWhitespace(s[0]) then StripLeading(s[1..]) else s
  }

  /** `str.rstrip()`: the prefix left after dropping trailing whitespace. */
  function StripTrailing(s: string): (r: string)
    ensures |r| <= |s| && r == s[..|r|]
    ensures forall k :: |r| <= k < |s| ==> IsPythonWhitespace(s[k])
    ensures r == [] || !IsPythonWhitespace(r[|r| - 1])
  {
    if s != [] && IsPythonWhitespace(s[|s| - 1]) then StripTrailing(s[..|s| - 1]) else s
  }

  /** `str.strip()`. */
  function Strip(s: string): string {
    StripTrailing(StripLeading(s))
  }

  /** The two readings of the guard agree: stripping leaves nothing exactly when
      every character is whitespace. */
  lemma BlankIffStripEmpty(code: string)
    ensures Blank(code) <==> Strip(code) == []
  {
    var l := StripLeading(code);
    assert Strip(code) == StripTrailing(l);
  }
}
