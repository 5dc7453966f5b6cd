/**
 * The few pieces of Python's string behaviour the model relies on:
 * `str.endswith`, `str.join` and `str(int)` for decimal integers.
 */
module Text {

  /** Python's `s.endswith(suffix)`. */
  predicate EndsWith(s: string, suffix: string) {
    |suffix| <= |s| && s[|s| - |suffix|..] == suffix
  }

  /** Python's `sep.join(parts)`. */
  function Join(parts: seq<string>, sep: string): string {
    if |parts| == 0 then ""
    else if |parts| == 1 then parts[0]
    else parts[0] + sep + Join(parts[1..], sep)
  }

  /** Appending one more part to a non-empty join adds the separator and the part. */
  lemma {:induction false} JoinSnoc(parts: seq<string>, p: string, sep: string)
    requires parts != []
    ensures Join(parts + [p], sep) == Join(parts, sep) + sep + p
  {
    if |parts| > 1 {
      assert (parts + [p])[1..] == parts[1..] + [p];
      JoinSnoc(parts[1..], p, sep);
    }
  }

  /** Joining two parts puts the separator between them. */
  lemma JoinPair(a: string, b: string, sep: string)
    ensures Join([a, b], sep) == a + sep + b
  {
    assert [a, b][1..] == [b];
  }

  /** Two distinct elements, once each: the sequence holds them in one order or the other. */
  lemma TwoElements<T>(s: seq<T>, a: T, b: T)
    requires multiset(s) == multiset{a, b} && a != b
    ensures s == [a, b] || s == [b, a]
  {
    assert |s| == |multiset(s)| == 2;
    assert s[0] in multiset(s) && s[1] in multiset(s);
    assert s == [s[0], s[1]];
  }

  predicate IsDigit(c: char) {
    '0' <= c <= '9'
  }

  predicate AllDigits(s: string) {
    forall i :: 0 <= i < |s| ==> IsDigit(s[i])
  }

  /** The decimal digit character for `d`. */
  function DigitChar(d: nat): (c: char)
    requires d < 10
    ensures IsDigit(c) && DigitValue(c) == d
  {
    (48 + d) as char
  }

  /** The value of a decimal digit character. */
  function DigitValue(c: char): nat
    requires IsDigit(c)
  {
    c as nat - 48
  }

  /** Decimal digits of a natural number, without leading zeros. */
  function NatToString(n: nat): (s: string)
    ensures s != [] && AllDigits(s)
    ensures |s| > 1 ==> s[0] != '0'
  {
    if n < 10 then [DigitChar(n)] else NatToString(n / 10) + [DigitChar(n % 10)]
  }

  /** Python's `str(i)` for an integer: an optional minus sign and the digits. */
  function IntToString(i: int): (s: string)
    ensures IsDecimal(s)
  {
    if i < 0 then "-" + NatToString(-i) else NatToString(i)
  }

  /** A non-empty run of digits, with a leading minus sign allowed. */
  predicate IsDecimal(s: string) {
    if |s| > 0 && s[0] == '-' then |s| > 1 && AllDigits(s[1..])
    else |s| > 0 && AllDigits(s)
  }

  /** The value of a non-empty string of digits. */
  function ParseNat(s: string): nat
    requires s != [] && AllDigits(s)
  {
    if |s| == 1 then DigitValue(s[0])
    else ParseNat(s[..|s| - 1]) * 10 + DigitValue(s[|s| - 1])
  }

  /** Python's `int(s)` on a decimal string. */
  function ParseInt(s: string): int
    requires IsDecimal(s)
  {
    if s[0] == '-' then -(ParseNat(s[1..]) as int) else ParseNat(s)
  }

  lemma {:induction false} ParseNatToString(n: nat)
    ensures ParseNat(NatToString(n)) == n
  {
    if n >= 10 {
      var s := NatToString(n);
      assert s[..|s| - 1] == NatToString(n / 10);
      ParseNatToString(n / 10);
    }
  }

  /** `str(i)` is read back by `int(...)` as `i`: the rendering loses nothing. */
  lemma IntToStringRoundTrip(i: int)
    ensures ParseInt(IntToString(i)) == i
  {
    if i < 0 {
      var d := NatToString(-i);
      assert IntToString(i) == "-" + d;
      assert ("-" + d)[0] == '-' && ("-" + d)[1..] == d;
      ParseNatToString(-i);
    } else {
      var d := NatToString(i);
      assert IntToString(i) == d;
      assert IsDigit(d[0]);
      ParseNatToString(i);
    }
  }

  /** Distinct integers render as distinct strings. */
  lemma IntToStringInjective(i: int, j: int)
    requires IntToString(i) == IntToString(j)
    ensures i == j
  {
    IntToStringRoundTrip(i);
    IntToStringRoundTrip(j);
  }

  /** Only the first character of a decimal rendering can be a minus sign. */
  lemma DecimalTail(s: string, k: int)
    requires IsDecimal(s) && 0 < k < |s|
    ensures IsDigit(s[k])
  {
  }
}
