/** Decimal numerals as the services print and parse them: ticket references and
    token lifetimes both rest on a numeral determining its number. */
module Decimal {
  function Digit(d: nat): char
    requires d < 10
  {
    "0123456789"[d]
  }

  predicate IsDigit(c: char) {
    '0' <= c <= '9'
  }

  function Value(c: char): nat
    requires IsDigit(c)
  {
    (c - '0') as nat
  }

  predicate IsNumeral(s: string) {
    |s| > 0 && forall i :: 0 <= i < |s| ==> IsDigit(s[i])
  }

  /** `String(n)` for a non-negative integer: no leading zero except for 0 itself. */
  function Print(n: nat): (s: string)
    ensures IsNumeral(s)
    ensures s[0] == '0' <==> n == 0
    ensures n < 10 <==> |s| == 1
  {
    if n < 10 then [Digit(n)] else Print(n / 10) + [Digit(n % 10)]
  }

  /** `parseInt(s, 10)` on digits. */
  function Parse(s: string): nat
    requires forall i :: 0 <= i < |s| ==> IsDigit(s[i])
  {
    if s == [] then 0 else 10 * Parse(s[..|s| - 1]) + Value(s[|s| - 1])
  }

  function Zeros(k: nat): (s: string)
    ensures |s| == k && forall i :: 0 <= i < k ==> s[i] == '0'
  {
    seq(k, _ => '0')
  }

  /** `s.padStart(width, '0')`: never truncates a longer string. */
  function PadStart(s: string, width: nat): string {
    if |s| >= width then s else Zeros(width - |s|) + s
  }

  lemma {:induction false} ParsePrint(n: nat)
    ensures Parse(Print(n)) == n
  {
    if n >= 10 {
      ParsePrint(n / 10);
      assert Print(n)[..|Print(n)| - 1] == Print(n / 10);
    }
  }

  lemma {:induction false} ParseZeros(k: nat, s: string)
    requires forall i :: 0 <= i < |s| ==> IsDigit(s[i])
    ensures Parse(Zeros(k) + s) == Parse(s)
  {
    var z := Zeros(k);
    if s != [] {
      var p := s[..|s| - 1];
      ParseZeros(k, p);
      assert (z + s)[..|z + s| - 1] == z + p;
    } else {
      assert z + s == z;
      if k > 0 {
        assert z[..k - 1] + [] == Zeros(k - 1) + [];
        ParseZeros(k - 1, []);
        assert Zeros(k - 1) + [] == z[..k - 1];
      }
    }
  }

  /** A padded numeral still determines its number, at any width and for every
      number, including those longer than the width. */
  lemma PaddedNumeralsAreInvertible(n: nat, width: nat)
    ensures IsNumeral(PadStart(Print(n), width))
    ensures Parse(PadStart(Print(n), width)) == n
    ensures |PadStart(Print(n), width)| >= width
  {
    ParsePrint(n);
    if |Print(n)| < width {
      ParseZeros(width - |Print(n)|, Print(n));
    }
  }

  /** Every string of digits is some number with leading zeros. */
  lemma {:induction false} EveryNumeralIsPadded(s: string) returns (k: nat, n: nat)
    requires IsNumeral(s)
    ensures s == Zeros(k) + Print(n)
  {
    var front, last := s[..|s| - 1], s[|s| - 1];
    assert s == front + [last];
    DigitOfValue(last);
    if front == [] {
      k, n := 0, Value(last);
      assert s == Zeros(0) + Print(n);
    } else {
      var j, m := EveryNumeralIsPadded(front);
      if m == 0 {
        k, n := j + 1, Value(last);
        assert front == Zeros(j + 1);
      } else {
        k, n := j, 10 * m + Value(last);
        PrintSnoc(m, last);
        Associate(Zeros(j), Print(m), [last]);
      }
    }
  }

  lemma PrintSnoc(m: nat, c: char)
    requires m > 0 && IsDigit(c)
    ensures Print(10 * m + Value(c)) == Print(m) + [c]
  {
    var n := 10 * m + Value(c);
    assert n / 10 == m && n % 10 == Value(c);
    DigitOfValue(c);
  }

  lemma Associate(a: string, b: string, c: string)
    ensures (a + b) + c == a + (b + c)
  {}

  lemma DigitOfValue(c: char)
    requires IsDigit(c)
    ensures Value(c) < 10 && Digit(Value(c)) == c
  {}
}
