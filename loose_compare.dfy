/** PHP 8's loose comparison `==` / `!=` between two strings, as the gate uses
    it to compare the caller's access key with the configured one: two
    numeric strings are compared as numbers, anything else byte for byte.
    Numeric strings are modelled in their integer form (surrounding
    whitespace, an optional sign, decimal digits) within PHP's 64-bit range. */
module LooseCompare {

  const PhpIntMin: int := -0x8000_0000_0000_0000
  const PhpIntMax: int := 0x7FFF_FFFF_FFFF_FFFF

  /** The whitespace PHP allows around a numeric string: " \t\n\r\v\f". */
  predicate IsNumericSpace(c: char) {
    c == ' ' || c == '\t' || c == '\n' || c == '\r' || c == '\U{000B}' || c == '\U{000C}'
  }

  predicate IsDigit(c: char) {
    '0' <= c <= '9'
  }

  predicate AllDigits(d: string) {
    forall i :: 0 <= i < |d| ==> IsDigit(d[i])
  }

  function TrimLeft(s: string): (r: string)
    ensures |r| <= |s| && r == s[|s| - |r|..]
    ensures r != [] ==> !IsNumericSpace(r[0])
  {
    if s != [] && IsNumericSpace(s[0]) then TrimLeft(s[1..]) else s
  }

  function TrimRight(s: string): (r: string)
    ensures r <= s
    ensures r != [] ==> !IsNumericSpace(r[|r| - 1])
  {
    if s != [] && IsNumericSpace(s[|s| - 1]) then TrimRight(s[..|s| - 1]) else s
  }

  /** The string without surrounding whitespace and without its sign. */
  function Magnitude(s: string): string {
    var t := TrimRight(TrimLeft(s));
    if t != [] && (t[0] == '+' || t[0] == '-') then t[1..] else t
  }

  predicate IsNegative(s: string) {
    var t := TrimRight(TrimLeft(s));
    t != [] && t[0] == '-'
  }

  predicate IsIntegerString(s: string) {
    Magnitude(s) != [] && AllDigits(Magnitude(s))
  }

  function DigitsValue(d: string): nat
    requires AllDigits(d)
  {
    if d == [] then 0 else 10 * DigitsValue(d[..|d| - 1]) + (d[|d| - 1] as int - '0' as int)
  }

  function IntegerValue(s: string): int
    requires IsIntegerString(s)
  {
    if IsNegative(s) then 0 - DigitsValue(Magnitude(s)) else DigitsValue(Magnitude(s))
  }

  /** A string PHP reads as an int (rather than as a float or a non-number). */
  predicate IsIntNumeric(s: string) {
    IsIntegerString(s) && PhpIntMin <= IntegerValue(s) <= PhpIntMax
  }

  /** `$a == $b` for two strings. */
  predicate LooseEquals(a: string, b: string) {
    if IsIntNumeric(a) && IsIntNumeric(b) then IntegerValue(a) == IntegerValue(b) else a == b
  }

  /** Loose equality is an equivalence on the strings it compares. */
  lemma LooseEqualsIsEquivalence(a: string, b: string, c: string)
    ensures LooseEquals(a, a)
    ensures LooseEquals(a, b) == LooseEquals(b, a)
    ensures LooseEquals(a, b) && LooseEquals(b, c) ==> LooseEquals(a, c)
  {
  }

  /** For a key that is not an integer string, loose comparison is exact:
      only the very same string matches. */
  lemma NonNumericKeyMatchesExactly(given: string, key: string)
    requires !IsIntegerString(key)
    ensures LooseEquals(given, key) <==> given == key
  {
  }

  /** A missing key is compared as "" and matches no non-empty key. */
  lemma EmptyMatchesOnlyEmpty(key: string)
    ensures LooseEquals("", key) <==> key == ""
  {
    assert TrimLeft("") == "";
    assert !IsIntegerString("");
  }

  lemma {:induction false} LeadingZeroValue(d: string)
    requires AllDigits(d)
    ensures AllDigits("0" + d) && DigitsValue("0" + d) == DigitsValue(d)
  {
    var z := "0" + d;
    assert AllDigits(z) by {
      forall i | 0 <= i < |z| ensures IsDigit(z[i]) {
        if i > 0 { assert z[i] == d[i - 1]; }
      }
    }
    if d != [] {
      LeadingZeroValue(d[..|d| - 1]);
      assert z[..|z| - 1] == "0" + d[..|d| - 1];
      assert z[|z| - 1] == d[|d| - 1];
    }
  }

  /** A run of digits has no surrounding whitespace and no sign. */
  lemma DigitsTrimToThemselves(d: string)
    requires d != [] && AllDigits(d)
    ensures TrimRight(TrimLeft(d)) == d
    ensures d[0] != '+' && d[0] != '-'
  {
    assert IsDigit(d[0]) && IsDigit(d[|d| - 1]);
    assert !IsNumericSpace(d[0]) && !IsNumericSpace(d[|d| - 1]);
    assert TrimLeft(d) == d;
  }

  /** An unsigned run of digits is its own magnitude. */
  lemma DigitsAreOwnMagnitude(d: string)
    requires d != [] && AllDigits(d)
    ensures IsIntegerString(d) && !IsNegative(d) && IntegerValue(d) == DigitsValue(d)
  {
    DigitsTrimToThemselves(d);
    assert Magnitude(d) == d;
  }

  /** A numeric key given with a leading zero loosely equals the key, so it
      passes the gate's key check. */
  lemma LeadingZeroMatches(key: string)
    requires key != [] && AllDigits(key) && DigitsValue(key) <= PhpIntMax
    ensures LooseEquals("0" + key, key)
  {
    LeadingZeroValue(key);
    DigitsAreOwnMagnitude(key);
    DigitsAreOwnMagnitude("0" + key);
    assert IsIntNumeric(key) && IsIntNumeric("0" + key);
  }
}
