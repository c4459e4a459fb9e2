/** The string operations the report relies on: `str.upper`, slicing,
    left justification (`{:<w}`) and the zero-padded counter (`{:>02}`). */
module Text {

  import opened Basics

  predicate IsLower(c: char) { 'a' <= c <= 'z' }

  /** No character of `s` is a lower-case letter. */
  predicate IsUpperText(s: string) { forall i :: 0 <= i < |s| ==> !IsLower(s[i]) }

  function UpperChar(c: char): char
  {
    if IsLower(c) then (c as int - 'a' as int + 'A' as int) as char else c
  }

  /** `str.upper`, restricted to the ASCII letters. */
  function Upper(s: string): (r: string)
    ensures |r| == |s| && IsUpperText(r)
    ensures forall i :: 0 <= i < |s| && !IsLower(s[i]) ==> r[i] == s[i]
    ensures forall i :: 0 <= i < |s| && IsLower(s[i]) ==> r[i] as int == s[i] as int - 32
  {
    seq(|s|, i requires 0 <= i < |s| => UpperChar(s[i]))
  }

  /** `n` copies of `c`. */
  function Repeat(c: char, n: nat): (r: string)
    ensures |r| == n
    ensures forall i :: 0 <= i < n ==> r[i] == c
  {
    seq(n, _ => c)
  }

  /** `s[:n]`: the first `n` characters, or all of `s` when it is shorter. */
  function Truncate(s: string, n: nat): (r: string)
    ensures |r| == Min(n, |s|) && r <= s
  {
    if |s| <= n then s else s[..n]
  }

  /** `format(s, "<w")`: `s` left-justified in a field of width `w`;
      a longer `s` is kept whole. */
  function PadRight(s: string, w: nat): (r: string)
    ensures |r| == Max(w, |s|)
    ensures r[..|s|] == s
    ensures forall i :: |s| <= i < |r| ==> r[i] == ' '
  {
    if |s| >= w then s else s + Repeat(' ', w - |s|)
  }

  /** `s` right-justified in a field of width `w`, filled with `fill`. */
  function PadLeft(s: string, w: nat, fill: char): (r: string)
    ensures |r| == Max(w, |s|)
    ensures r[|r| - |s|..] == s
    ensures forall i :: 0 <= i < |r| - |s| ==> r[i] == fill
  {
    if |s| >= w then s else Repeat(fill, w - |s|) + s
  }

  predicate IsDigit(c: char) { '0' <= c <= '9' }

  predicate IsDigits(s: string) { forall i :: 0 <= i < |s| ==> IsDigit(s[i]) }

  function DigitChar(d: nat): (c: char)
    requires d < 10
    ensures IsDigit(c) && c as int - '0' as int == d
  {
    ('0' as int + d) as char
  }

  /** `str(n)` for a natural number: its decimal digits, most significant first. */
  function DecimalString(n: nat): (r: string)
    ensures |r| >= 1 && IsDigits(r)
    ensures n >= 10 ==> |r| >= 2
    ensures r[0] == '0' ==> n == 0
  {
    if n < 10 then [DigitChar(n)] else DecimalString(n / 10) + [DigitChar(n % 10)]
  }

  /** The number a string of decimal digits denotes. */
  function DecimalValue(s: string): nat
    requires IsDigits(s)
  {
    if s == [] then 0
    else DecimalValue(s[..|s| - 1]) * 10 + (s[|s| - 1] as int - '0' as int)
  }

  /** Reading the digits back gives the number. */
  lemma {:induction false} DecimalRoundTrip(n: nat)
    ensures DecimalValue(DecimalString(n)) == n
  {
    var s := DecimalString(n);
    if n >= 10 {
      DecimalRoundTrip(n / 10);
      assert s[..|s| - 1] == DecimalString(n / 10);
    }
  }

  /** `format(n, ">02")`: the decimal digits of `n`, zero-padded on the left
      to at least two characters. */
  function ZeroPad2(n: nat): (r: string)
    ensures |r| == Max(2, |DecimalString(n)|) && IsDigits(r)
  {
    PadLeft(DecimalString(n), 2, '0')
  }

  /** A counter below 100 is written as exactly two digits, tens then units,
      and reads back as itself. */
  lemma ZeroPad2TwoDigits(n: nat)
    requires n < 100
    ensures ZeroPad2(n) == [DigitChar(n / 10), DigitChar(n % 10)]
    ensures DecimalValue(ZeroPad2(n)) == n
  {
    if n >= 10 {
      assert DecimalString(n / 10) == [DigitChar(n / 10)];
    }
    var r := ZeroPad2(n);
    assert r[..1][..0] == [];
    assert r[..1] == [DigitChar(n / 10)];
    assert DecimalValue(r[..1]) == n / 10;
    assert DecimalValue(r) == DecimalValue(r[..1]) * 10 + n % 10;
  }

  /** Cutting a string made of four parts at the parts' boundaries gives
      the parts back. */
  lemma Parts(line: string, a: string, b: string, c: string, d: string, i: nat, j: nat, k: nat)
    requires line == a + b + c + d
    requires i == |a| && j == i + |b| && k == j + |c|
    ensures |line| == k + |d|
    ensures line[..i] == a && line[i..j] == b && line[j..k] == c && line[k..] == d
  {
    assert line[..i] == (a + b + c + d)[..|a|];
    assert line[i..j] == (a + b + c + d)[|a|..|a| + |b|];
    assert line[j..k] == (a + b + c + d)[|a| + |b|..|a| + |b| + |c|];
  }

  /** The characters of a slice are those of the string, shifted. */
  lemma SliceChars(line: string, i: nat, j: nat, part: string)
    requires i <= j <= |line| && line[i..j] == part
    ensures forall n :: 0 <= n < |part| ==> line[i + n] == part[n]
  {
    forall n | 0 <= n < |part|
      ensures line[i + n] == part[n]
    {
      assert line[i..j][n] == line[i + n];
    }
  }
}
