/** The few PHP runtime primitives the plugin's logic leans on, given exact definitions:
    the string form of a non-negative integer, the integer conversion of a submitted
    string, ASCII lower-casing, single-character replacement and `empty()` on strings. */
module Php {

  datatype Option<+T> = None | Some(value: T)

  predicate IsDigit(c: char) {
    '0' <= c <= '9'
  }

  predicate AllDigits(s: string) {
    forall i :: 0 <= i < |s| ==> IsDigit(s[i])
  }

  function DigitChar(d: nat): (c: char)
    requires d < 10
    ensures IsDigit(c)
  {
    (48 + d) as char
  }

  function DigitValue(c: char): (d: nat)
    requires IsDigit(c)
    ensures d < 10 && DigitChar(d) == c
  {
    (c as int) - 48
  }

  /** The string PHP produces when a non-negative int is concatenated with `.`:
      decimal digits, no sign, no leading zero. */
  function DecimalString(n: nat): (s: string)
    ensures 1 <= |s| && AllDigits(s)
    ensures s[0] == '0' <==> n == 0
    ensures n < 10 <==> |s| == 1
  {
    if n < 10 then [DigitChar(n)] else DecimalString(n / 10) + [DigitChar(n % 10)]
  }

  /** The number a string of decimal digits denotes. */
  function DigitsValue(s: string): nat
    requires AllDigits(s)
  {
    if s == [] then 0 else 10 * DigitsValue(s[..|s| - 1]) + DigitValue(s[|s| - 1])
  }

  /** Reading back the decimal rendering of `n` gives `n`. */
  lemma {:induction false} DecimalRoundTrip(n: nat)
    ensures DigitsValue(DecimalString(n)) == n
  {
    if n >= 10 {
      var s := DecimalString(n);
      assert s[..|s| - 1] == DecimalString(n / 10);
      DecimalRoundTrip(n / 10);
    }
  }

  /** Distinct numbers render as distinct strings. */
  lemma DecimalInjective(m: nat, n: nat)
    ensures DecimalString(m) == DecimalString(n) ==> m == n
  {
    DecimalRoundTrip(m);
    DecimalRoundTrip(n);
  }

  /** PHP's leading whitespace for numeric strings: space, tab, LF, VT, FF, CR. */
  predicate IsSpace(c: char) {
    c == ' ' || '\t' <= c <= '\r'
  }

  function SkipSpace(s: string): (t: string)
    ensures |t| <= |s| && t == s[|s| - |t|..]
    ensures t == [] || !IsSpace(t[0])
  {
    if s != [] && IsSpace(s[0]) then SkipSpace(s[1..]) else s
  }

  /** The longest prefix of `s` made of decimal digits. */
  function DigitPrefix(s: string): (p: string)
    ensures |p| <= |s| && p == s[..|p|] && AllDigits(p)
    ensures |p| == |s| || !IsDigit(s[|p|])
  {
    if s != [] && IsDigit(s[0]) then [s[0]] + DigitPrefix(s[1..]) else []
  }

  /** PHP's `(int)` conversion of a string, for integer text: leading whitespace, an
      optional sign, then as many decimal digits as follow. A fraction or exponent
      after the digits is not read (see `EndsInteger`). */
  function IntVal(s: string): (r: int)
    ensures r < 0 ==> SkipSpace(s) != [] && SkipSpace(s)[0] == '-'
    ensures SkipSpace(s) == []
      || !(IsDigit(SkipSpace(s)[0]) || SkipSpace(s)[0] == '-' || SkipSpace(s)[0] == '+')
      ==> r == 0
  {
    var t := SkipSpace(s);
    if t != [] && t[0] == '-' then -(DigitsValue(DigitPrefix(t[1..])) as int)
    else if t != [] && t[0] == '+' then DigitsValue(DigitPrefix(t[1..]))
    else DigitsValue(DigitPrefix(t))
  }

  /** Text that PHP's conversion does not read on from after a run of digits: nothing,
      or a character that is neither a digit nor the start of a fraction or exponent. */
  predicate EndsInteger(rest: string) {
    rest == [] || !(IsDigit(rest[0]) || rest[0] == '.' || rest[0] == 'e' || rest[0] == 'E')
  }

  /** A string that starts with a digit converts to the value of its digit prefix. */
  lemma IntValUnsigned(s: string)
    requires s != [] && IsDigit(s[0])
    ensures IntVal(s) == DigitsValue(DigitPrefix(s))
  {
  }

  /** A string that starts with `-` and then a digit converts to minus the value of
      the digits after the sign. */
  lemma IntValNegative(s: string)
    requires 2 <= |s| && s[0] == '-' && IsDigit(s[1])
    ensures IntVal(s) == -(DigitsValue(DigitPrefix(s[1..])) as int)
  {
  }

  /** Converting the decimal rendering of `n` back with `(int)` gives `n`; text after
      the digits that does not continue the number is ignored. */
  lemma IntValOfDecimal(n: nat, rest: string)
    requires EndsInteger(rest)
    ensures IntVal(DecimalString(n) + rest) == n
  {
    var d := DecimalString(n);
    IntValUnsigned(d + rest);
    DigitPrefixAppend(d, rest);
    DecimalRoundTrip(n);
  }

  /** With a leading minus sign the conversion gives `-n`. */
  lemma IntValOfNegatedDecimal(n: nat, rest: string)
    requires EndsInteger(rest)
    ensures IntVal("-" + DecimalString(n) + rest) == -(n as int)
  {
    var d := DecimalString(n);
    var m := "-" + d + rest;
    assert m[1..] == d + rest;
    IntValNegative(m);
    DigitPrefixAppend(d, rest);
    DecimalRoundTrip(n);
  }

  lemma {:induction false} DigitPrefixAppend(d: string, rest: string)
    requires AllDigits(d)
    requires rest == [] || !IsDigit(rest[0])
    ensures DigitPrefix(d + rest) == d
  {
    if d != [] {
      assert (d + rest)[1..] == d[1..] + rest;
      DigitPrefixAppend(d[1..], rest);
    }
  }

  /** WordPress `absint`: the absolute value of the integer conversion. */
  function Abs(x: int): (r: nat)
    ensures r == x || r == -x
  {
    if x < 0 then -x else x
  }

  /** ASCII `strtolower`, as in the C locale: only A-Z are mapped. */
  function LowerChar(c: char): char {
    if 'A' <= c <= 'Z' then (c as int + 32) as char else c
  }

  function ToLower(s: string): string {
    seq(|s|, i requires 0 <= i < |s| => LowerChar(s[i]))
  }

  /** `str_replace` with a one-character search and replacement. */
  function ReplaceChar(s: string, from: char, to: char): string {
    seq(|s|, i requires 0 <= i < |s| => if s[i] == from then to else s[i])
  }

  /** PHP `empty()` applied to a string: true for "" and for "0". */
  predicate IsEmpty(s: string) {
    s == "" || s == "0"
  }
}
