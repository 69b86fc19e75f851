/**
 * The pieces of Python's string handling that the transcoder relies on:
 * slicing with negative and out-of-range indices, ASCII digits and
 * zero-padded decimals (as `strftime` writes them), prefix and suffix tests,
 * and ASCII case folding (as a case-insensitive regular expression applies it).
 */
module PyText {

  /** How Python normalises one bound of `s[start:stop]`: a negative index counts
      from the end, and the result is clamped to `[0, len]`. */
  function SliceBound(i: int, len: nat): (k: nat)
    ensures k <= len
    ensures 0 <= i <= len ==> k == i
    ensures i < 0 && i + len >= 0 ==> k == i + len
    ensures i > len ==> k == len
    ensures i + len < 0 ==> k == 0
  {
    if i < 0 then (if i + len < 0 then 0 else i + len)
    else if i > len then len
    else i
  }

  /** Python's `s[start:stop]`; an empty result when the bounds cross. */
  function Slice<T>(s: seq<T>, start: int, stop: int): (r: seq<T>)
    ensures |r| <= |s|
  {
    var a, b := SliceBound(start, |s|), SliceBound(stop, |s|);
    if a < b then s[a..b] else []
  }

  lemma SliceInside<T>(s: seq<T>, start: nat, stop: nat)
    requires start <= stop <= |s|
    ensures Slice(s, start, stop) == s[start..stop]
  {
  }

  predicate IsDigit(c: char) {
    '0' <= c <= '9'
  }

  predicate AllDigits(s: string) {
    forall i :: 0 <= i < |s| ==> IsDigit(s[i])
  }

  function DigitValue(c: char): (d: nat)
    requires IsDigit(c)
    ensures d < 10
  {
    c as int - '0' as int
  }

  function Digit(d: nat): (c: char)
    requires d < 10
    ensures IsDigit(c) && DigitValue(c) == d
  {
    ('0' as int + d) as char
  }

  /** The number a string of ASCII digits denotes, as Python's `int()` reads it. */
  function Decimal(s: string): nat
    requires AllDigits(s)
  {
    if s == [] then 0 else Decimal(s[..|s| - 1]) * 10 + DigitValue(s[|s| - 1])
  }

  function Pow10(n: nat): (p: nat)
    ensures p >= 1
  {
    if n == 0 then 1 else 10 * Pow10(n - 1)
  }

  /** `n` written with exactly `width` decimal digits, zero-padded on the left,
      as `%Y` (width 4) and `%m`, `%d`, `%H` (width 2) write it. */
  function Padded(n: nat, width: nat): (s: string)
    ensures |s| == width && AllDigits(s)
  {
    if width == 0 then "" else Padded(n / 10, width - 1) + [Digit(n % 10)]
  }

  /** Reading back a zero-padded number gives the number. */
  lemma {:induction false} DecimalOfPadded(n: nat, width: nat)
    requires n < Pow10(width)
    ensures Decimal(Padded(n, width)) == n
  {
    if width > 0 {
      DecimalOfPadded(n / 10, width - 1);
      var s := Padded(n, width);
      assert s[..|s| - 1] == Padded(n / 10, width - 1);
    }
  }

  /** A string of `k` digits denotes a number below `10^k`. */
  lemma {:induction false} DecimalBound(s: string)
    requires AllDigits(s)
    ensures Decimal(s) < Pow10(|s|)
  {
    if s != [] {
      DecimalBound(s[..|s| - 1]);
    }
  }

  predicate StartsWith(s: string, prefix: string) {
    |prefix| <= |s| && s[..|prefix|] == prefix
  }

  predicate EndsWith(s: string, suffix: string) {
    |suffix| <= |s| && s[|s| - |suffix|..] == suffix
  }

  function AsciiLower(c: char): char {
    if 'A' <= c <= 'Z' then (c as int + 32) as char else c
  }

  /** Equality of two strings up to ASCII case. */
  predicate EqualsIgnoringCase(s: string, t: string) {
    |s| == |t| && forall i :: 0 <= i < |s| ==> AsciiLower(s[i]) == AsciiLower(t[i])
  }
}
