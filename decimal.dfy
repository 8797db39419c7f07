/** Decimal rendering of integers, as done by printf's "%0<width>d" and by
    ToString on an unsigned integer, together with the parser that undoes it. */
module Decimal {

  predicate IsDigit(c: char) {
    '0' <= c <= '9'
  }

  predicate AllDigits(s: string) {
    forall i :: 0 <= i < |s| ==> IsDigit(s[i])
  }

  function DigitChar(d: nat): (c: char)
    requires d < 10
    ensures IsDigit(c)
  {
    (48 + d) as char
  }

  function DigitValue(c: char): (d: nat)
    requires IsDigit(c)
    ensures d < 10
  {
    c as int - 48
  }

  /** The shortest decimal spelling of n: "0" for zero, and no leading '0'
      otherwise. */
  function Digits(n: nat): (s: string)
    ensures |s| >= 1 && AllDigits(s)
    ensures s[0] == '0' <==> n == 0
    ensures n == 0 ==> s == "0"
    decreases n
  {
    if n < 10 then [DigitChar(n)] else Digits(n / 10) + [DigitChar(n % 10)]
  }

  /** The number a string of digits spells, most significant digit first. */
  function Value(s: string): nat
    requires AllDigits(s)
    decreases |s|
  {
    if s == [] then 0 else 10 * Value(s[..|s| - 1]) + DigitValue(s[|s| - 1])
  }

  function Zeros(k: nat): (z: string)
    ensures |z| == k && AllDigits(z)
  {
    seq(k, _ => '0')
  }

  /** s padded on the left with '0' up to width characters. */
  function PadLeft(s: string, width: nat): (r: string)
    ensures |r| == if |s| >= width then |s| else width
    ensures AllDigits(s) ==> AllDigits(r)
    ensures s <= r[|r| - |s|..] && r[|r| - |s|..] == s
  {
    if |s| >= width then s else Zeros(width - |s|) + s
  }

  /** printf("%0<width>d", n): a minus sign counts towards the width and the
      zeros go between the sign and the digits. */
  function FormatInt(n: int, width: nat): (r: string)
    requires width >= 1
    ensures |r| >= width
    ensures n >= 0 ==> AllDigits(r)
    ensures n < 0 ==> |r| >= 2 && r[0] == '-' && AllDigits(r[1..])
  {
    if n >= 0 then Padded(n, width) else "-" + Padded(-n, width - 1)
  }

  /** The digits of n, padded on the left with '0' up to width characters;
      they spell n back. */
  function Padded(n: nat, width: nat): (p: string)
    ensures AllDigits(p) && Value(p) == n
  {
    ValueOfPadded(n, width);
    PadLeft(Digits(n), width)
  }

  /** Reads back what FormatInt writes. */
  function ParseInt(r: string): int
    requires (|r| >= 1 && r[0] == '-' && AllDigits(r[1..])) || AllDigits(r)
  {
    if |r| >= 1 && r[0] == '-' then -(Value(r[1..]) as int) else Value(r)
  }

  lemma {:induction false} ValueOfDigits(n: nat)
    ensures Value(Digits(n)) == n
    decreases n
  {
    if n >= 10 {
      var s := Digits(n);
      assert s[..|s| - 1] == Digits(n / 10);
      ValueOfDigits(n / 10);
    }
  }

  lemma {:induction false} ValueOfZeros(k: nat)
    ensures Value(Zeros(k)) == 0
  {
    if k > 0 {
      assert Zeros(k)[..k - 1] == Zeros(k - 1);
      ValueOfZeros(k - 1);
    }
  }

  lemma {:induction false} ValueSkipsLeadingZeros(k: nat, s: string)
    requires AllDigits(s)
    ensures AllDigits(Zeros(k) + s) && Value(Zeros(k) + s) == Value(s)
    decreases |s|
  {
    var t := Zeros(k) + s;
    if s == [] {
      assert t == Zeros(k);
      ValueOfZeros(k);
    } else {
      assert t[..|t| - 1] == Zeros(k) + s[..|s| - 1];
      ValueSkipsLeadingZeros(k, s[..|s| - 1]);
    }
  }

  lemma ValueOfPadded(n: nat, width: nat)
    ensures AllDigits(PadLeft(Digits(n), width)) && Value(PadLeft(Digits(n), width)) == n
  {
    var s := Digits(n);
    ValueOfDigits(n);
    if |s| < width {
      ValueSkipsLeadingZeros(width - |s|, s);
      assert PadLeft(s, width) == Zeros(width - |s|) + s;
    } else {
      assert PadLeft(s, width) == s;
    }
  }

  /** Parsing undoes formatting, whatever the sign of n. */
  lemma FormatIntRoundTrip(n: int, width: nat)
    requires width >= 1
    ensures ParseInt(FormatInt(n, width)) == n
  {
    var r := FormatInt(n, width);
    if n >= 0 {
      assert r == Padded(n, width);
      assert r[0] != '-' by { assert IsDigit(r[0]); }
    } else {
      var p := Padded(-n, width - 1);
      assert r == "-" + p;
      assert r[1..] == p;
    }
  }

  /** Distinct integers are formatted as distinct strings. */
  lemma FormatIntInjective(a: int, b: int, width: nat)
    requires width >= 1
    requires FormatInt(a, width) == FormatInt(b, width)
    ensures a == b
  {
    FormatIntRoundTrip(a, width);
    FormatIntRoundTrip(b, width);
  }
}
