/** The string operations the core relies on: decimal rendering of integers (as a template
    literal `${n}` does), ASCII lower-casing, prefix and suffix tests, and the part of a
    string before its first separator (`s.split(sep)[0]`). */
module Text {

  predicate IsDigit(c: char) {
    '0' <= c <= '9'
  }

  function DigitChar(d: nat): (c: char)
    requires d < 10
    ensures IsDigit(c) && DigitValue(c) == d
  {
    "0123456789"[d]
  }

  function DigitValue(c: char): nat
    requires IsDigit(c)
  {
    (c as int - '0' as int) as nat
  }

  /** Decimal digits of `n`, most significant first, without leading zeros. */
  function NatToString(n: nat): (s: string)
    ensures |s| >= 1 && forall i :: 0 <= i < |s| ==> IsDigit(s[i])
    ensures |s| > 1 ==> s[0] != '0'
  {
    if n < 10 then [DigitChar(n)] else NatToString(n / 10) + [DigitChar(n % 10)]
  }

  /** How JavaScript renders an integral number: a minus sign, then the digits of its magnitude. */
  function IntToString(i: int): (s: string)
    ensures |s| >= 1
    ensures (s[0] == '-') <==> i < 0
    ensures IsDigit(s[|s| - 1])
    ensures i >= 0 ==> (forall k :: 0 <= k < |s| ==> IsDigit(s[k])) && ParseNat(s) == i
    ensures i < 0 ==> (forall k :: 1 <= k < |s| ==> IsDigit(s[k])) && ParseNat(s[1..]) == -i
    ensures var d := if i < 0 then 1 else 0; |s| > d + 1 ==> s[d] != '0'
  {
    var magnitude := if i < 0 then -i else i;
    NatToStringRoundTrip(magnitude);
    if i < 0 then
      assert ("-" + NatToString(magnitude))[1..] == NatToString(magnitude);
      "-" + NatToString(magnitude)
    else NatToString(magnitude)
  }

  /** Reads a string of decimal digits back as a number. */
  function ParseNat(s: string): nat
    requires forall i :: 0 <= i < |s| ==> IsDigit(s[i])
  {
    if s == [] then 0 else ParseNat(s[..|s| - 1]) * 10 + DigitValue(s[|s| - 1])
  }

  /** Reading back the rendered digits gives the number. */
  lemma {:induction false} NatToStringRoundTrip(n: nat)
    ensures ParseNat(NatToString(n)) == n
  {
    if n >= 10 {
      var s := NatToString(n);
      assert s[..|s| - 1] == NatToString(n / 10);
      NatToStringRoundTrip(n / 10);
    }
  }

  /** `toLowerCase` restricted to ASCII letters. */
  function LowerChar(c: char): (d: char)
    ensures 'A' <= c <= 'Z' ==> d as int == c as int + 32
    ensures !('A' <= c <= 'Z') ==> d == c
  {
    if 'A' <= c <= 'Z' then (c as int + 32) as char else c
  }

  function ToLower(s: string): (t: string)
    ensures |t| == |s|
    ensures forall i :: 0 <= i < |s| ==> t[i] == LowerChar(s[i])
  {
    if s == [] then [] else [LowerChar(s[0])] + ToLower(s[1..])
  }

  /** Lower-casing twice is lower-casing once. */
  lemma ToLowerIdempotent(s: string)
    ensures ToLower(ToLower(s)) == ToLower(s)
  {
  }

  predicate StartsWith(s: string, prefix: string) {
    |prefix| <= |s| && s[..|prefix|] == prefix
  }

  predicate EndsWith(s: string, suffix: string) {
    |suffix| <= |s| && s[|s| - |suffix|..] == suffix
  }

  lemma StartsWithConcat(a: string, b: string)
    ensures StartsWith(a + b, a)
  {
    assert (a + b)[..|a|] == a;
  }

  /** The part of `a + m + b` between `a` and `b` is `m`. */
  lemma Middle(a: string, m: string, b: string)
    ensures (a + m + b)[|a|..|a + m + b| - |b|] == m
  {
  }

  /** A two-character suffix is a matter of the last two characters. */
  lemma EndsWithTwo(s: string, x: char, y: char)
    requires |s| >= 2
    ensures EndsWith(s, [x, y]) <==> s[|s| - 2] == x && s[|s| - 1] == y
  {
    var tail := s[|s| - 2..];
    assert tail[0] == s[|s| - 2] && tail[1] == s[|s| - 1];
    if s[|s| - 2] == x && s[|s| - 1] == y {
      assert tail == [x, y];
    }
  }

  /** `s.split(sep)[0]`: everything before the first `sep`, or all of `s` when there is none. */
  function PrefixBefore(s: string, sep: char): (p: string)
    ensures StartsWith(s, p)
    ensures sep !in p
    ensures |p| < |s| ==> s[|p|] == sep
  {
    if s == [] || s[0] == sep then [] else [s[0]] + PrefixBefore(s[1..], sep)
  }

  /** Splitting at the first separator gives back what came before it. */
  lemma {:induction false} PrefixBeforeSeparator(a: string, sep: char, b: string)
    requires sep !in a
    ensures PrefixBefore(a + [sep] + b, sep) == a
  {
    if a != [] {
      assert (a + [sep] + b)[1..] == a[1..] + [sep] + b;
      PrefixBeforeSeparator(a[1..], sep, b);
    }
  }

  /** Lexicographic order on character codes: how the zone names are compared when the zone
      list is sorted (`localeCompare` agrees with it on ASCII letters followed by digits). */
  predicate StringLess(s: string, t: string) {
    if s == [] then t != []
    else if t == [] then false
    else if s[0] != t[0] then s[0] < t[0]
    else StringLess(s[1..], t[1..])
  }
}
