/**
 * String predicates and conversions with the meaning Python gives
 * them: `startswith`, `endswith`, `in` on strings, `isdigit` (ASCII
 * digits only), `str(int)` and `int(str)`.
 */
module Text {
  import opened Wrappers

  /** Python `s.startswith(p)`. */
  predicate StartsWith(s: string, p: string) {
    |p| <= |s| && s[..|p|] == p
  }

  /** Python `s.endswith(p)`. */
  predicate EndsWith(s: string, p: string) {
    |p| <= |s| && s[|s| - |p|..] == p
  }

  /** Python `needle in hay` for two strings: a substring test. */
  predicate Contains(hay: string, needle: string)
    decreases |hay|
  {
    StartsWith(hay, needle) || (|hay| > 0 && Contains(hay[1..], needle))
  }

  predicate IsDigit(c: char) {
    '0' <= c <= '9'
  }

  /** Python `s.isdigit()`, restricted to ASCII digits: non-empty and all digits. */
  predicate IsDigitString(s: string) {
    |s| > 0 && forall i :: 0 <= i < |s| ==> IsDigit(s[i])
  }

  function DigitChar(d: nat): (c: char)
    requires d < 10
    ensures IsDigit(c)
  {
    ['0', '1', '2', '3', '4', '5', '6', '7', '8', '9'][d]
  }

  function DigitOf(c: char): (d: nat)
    requires IsDigit(c)
    ensures d < 10 && DigitChar(d) == c
  {
    (c as int - '0' as int) as nat
  }

  /** Python `str(n)` for a natural number. */
  function Decimal(n: nat): (s: string)
    ensures IsDigitString(s)
    decreases n
  {
    if n < 10 then [DigitChar(n)] else Decimal(n / 10) + [DigitChar(n % 10)]
  }

  /** Python `str(i)` for any integer. */
  function IntText(i: int): string {
    if i < 0 then "-" + Decimal(-i) else Decimal(i)
  }

  /** The value of a string of decimal digits, most significant first. */
  function DigitsValue(s: string): nat
    requires forall i :: 0 <= i < |s| ==> IsDigit(s[i])
    decreases |s|
  {
    if s == [] then 0 else DigitsValue(s[..|s| - 1]) * 10 + DigitOf(s[|s| - 1])
  }

  lemma {:induction false} DecimalValue(n: nat)
    ensures DigitsValue(Decimal(n)) == n
    decreases n
  {
    if n >= 10 {
      DecimalValue(n / 10);
      var s := Decimal(n);
      assert s[..|s| - 1] == Decimal(n / 10);
    }
  }

  /** The characters Python's `str.strip()` removes (ASCII range only). */
  predicate IsSpace(c: char) {
    c == ' ' || c == '\t' || c == '\n' || c == '\r' || c == '\U{B}' || c == '\U{C}'
    || ('\U{1C}' <= c <= '\U{1F}')
  }

  function StripLeft(s: string): string
    decreases |s|
  {
    if |s| > 0 && IsSpace(s[0]) then StripLeft(s[1..]) else s
  }

  function StripRight(s: string): string
    decreases |s|
  {
    if |s| > 0 && IsSpace(s[|s| - 1]) then StripRight(s[..|s| - 1]) else s
  }

  /** Python `s.strip()`. */
  function Strip(s: string): string {
    StripLeft(StripRight(s))
  }

  /**
   * The digit part accepted by Python `int()`: digits, optionally with
   * single underscores between two digits (`1_000`).
   */
  predicate DigitGroups(s: string) {
    && |s| > 0 && IsDigit(s[0]) && IsDigit(s[|s| - 1])
    && (forall i :: 0 <= i < |s| ==> IsDigit(s[i]) || s[i] == '_')
    && (forall i :: 0 <= i < |s| - 1 && s[i] == '_' ==> s[i + 1] != '_')
  }

  function DropUnderscores(s: string): (r: string)
    requires forall i :: 0 <= i < |s| ==> IsDigit(s[i]) || s[i] == '_'
    ensures forall j :: 0 <= j < |r| ==> IsDigit(r[j])
  {
    if s == [] then [] else (if s[0] == '_' then [] else [s[0]]) + DropUnderscores(s[1..])
  }

  /** Python `int(s)` on a string: `Some(value)`, or `None` where Python raises `ValueError`. */
  function ParseInt(s: string): (r: Option<int>) {
    ParseStripped(Strip(s))
  }

  /** `int()` once surrounding whitespace is gone: an optional sign, then digit groups. */
  function ParseStripped(t: string): Option<int> {
    if |t| > 0 && (t[0] == '-' || t[0] == '+') then
      var v := ParseDigits(t[1..]);
      if v.None? then None else Some(if t[0] == '-' then -v.value else v.value)
    else ParseDigits(t)
  }

  /** The value of unsigned digit groups, or `None` for anything else. */
  function ParseDigits(d: string): Option<int> {
    if DigitGroups(d) then Some(DigitsValue(DropUnderscores(d))) else None
  }

  lemma {:induction false} DropUnderscoresOfDigits(s: string)
    requires forall i :: 0 <= i < |s| ==> IsDigit(s[i])
    ensures DropUnderscores(s) == s
  {
    if s != [] {
      DropUnderscoresOfDigits(s[1..]);
    }
  }

  lemma {:induction false} StripRightSpaces(s: string, w: string)
    requires s == [] || !IsSpace(s[|s| - 1])
    requires forall i :: 0 <= i < |w| ==> IsSpace(w[i])
    ensures StripRight(s + w) == s
    decreases |w|
  {
    if w == [] {
      assert s + w == s;
    } else {
      var sw := s + w;
      assert sw[..|sw| - 1] == s + w[..|w| - 1];
      StripRightSpaces(s, w[..|w| - 1]);
    }
  }

  lemma DecimalGroups(n: nat)
    ensures DigitGroups(Decimal(n))
    ensures DropUnderscores(Decimal(n)) == Decimal(n)
    ensures DigitsValue(DropUnderscores(Decimal(n))) == n
  {
    DropUnderscoresOfDigits(Decimal(n));
    DecimalValue(n);
  }

  lemma StripIntText(i: int, w: string)
    requires forall k :: 0 <= k < |w| ==> IsSpace(w[k])
    ensures Strip(IntText(i) + w) == IntText(i)
  {
    var s := IntText(i);
    StripRightSpaces(s, w);
    assert StripLeft(s) == s;
  }

  lemma ParseDecimalDigits(n: nat)
    ensures ParseDigits(Decimal(n)) == Some(n)
  {
    DecimalGroups(n);
  }

  lemma ParseDecimal(n: nat)
    ensures ParseStripped(Decimal(n)) == Some(n)
  {
    ParseDecimalDigits(n);
    var s := Decimal(n);
    assert s[0] != '-' && s[0] != '+';
  }

  lemma ParseNegatedDecimal(n: nat)
    ensures ParseStripped("-" + Decimal(n)) == Some(-(n as int))
  {
    ParseDecimalDigits(n);
    var s := "-" + Decimal(n);
    assert s[0] == '-' && s[1..] == Decimal(n);
  }

  lemma ParseIntTextStripped(i: int)
    ensures ParseStripped(IntText(i)) == Some(i)
  {
    if i < 0 {
      assert IntText(i) == "-" + Decimal(-i);
      ParseNegatedDecimal(-i);
    } else {
      assert IntText(i) == Decimal(i);
      ParseDecimal(i);
    }
  }

  /** `int()` reads back what `str()` writes, whatever whitespace trails it. */
  lemma ParseIntText(i: int, w: string)
    requires forall k :: 0 <= k < |w| ==> IsSpace(w[k])
    ensures ParseInt(IntText(i) + w) == Some(i)
  {
    StripIntText(i, w);
    ParseIntTextStripped(i);
  }
}
