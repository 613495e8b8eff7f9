/** Decimal text of integers and left padding: JavaScript's `String(n)` for an
    integer-valued number and `String.prototype.padStart`. */
module Decimal {

  predicate IsDigit(c: char) { '0' <= c <= '9' }

  function DigitChar(d: nat): (c: char)
    requires d < 10
    ensures IsDigit(c) && c as int - '0' as int == d
  {
    ('0' as int + d) as char
  }

  function DigitValue(c: char): nat {
    if IsDigit(c) then c as int - '0' as int else 0
  }

  /** The decimal digits of `n`, most significant first, with no leading zero
      unless `n` is zero itself. */
  function Digits(n: nat): (r: string)
    ensures |r| >= 1
    ensures forall i :: 0 <= i < |r| ==> IsDigit(r[i])
    ensures r[0] == '0' <==> n == 0
    ensures n == 0 ==> r == "0"
  {
    if n < 10 then [DigitChar(n)] else Digits(n / 10) + [DigitChar(n % 10)]
  }

  /** The number a string of decimal digits denotes, most significant first;
      the empty string denotes zero. */
  function Value(s: string): nat {
    if |s| == 0 then 0 else Value(s[..|s| - 1]) * 10 + DigitValue(s[|s| - 1])
  }

  /** Reading back the digits of `n` gives `n`. */
  lemma {:induction false} ValueOfDigits(n: nat)
    ensures Value(Digits(n)) == n
  {
    if n >= 10 {
      var s := Digits(n);
      assert s[..|s| - 1] == Digits(n / 10);
      ValueOfDigits(n / 10);
    }
  }

  /** `String(n)` for an integer `n`: a minus sign before the digits of `|n|`
      when `n` is negative. */
  function NumberText(n: int): (r: string)
    ensures |r| >= 1
    ensures r[0] == '-' <==> n < 0
    ensures r[0] == '0' <==> n == 0
    ensures n >= 0 ==> Value(r) == n
  {
    ValueOfDigits(if n < 0 then -n else n);
    if n < 0 then "-" + Digits(-n) else Digits(n)
  }

  /** Distinct integers have distinct decimal texts. */
  lemma NumberTextInjective(a: int, b: int)
    requires NumberText(a) == NumberText(b)
    ensures a == b
  {
    if a < 0 {
      assert b < 0;
      assert Digits(-a) == NumberText(a)[1..] == NumberText(b)[1..] == Digits(-b);
      ValueOfDigits(-a);
      ValueOfDigits(-b);
    }
  }

  function Repeat(c: char, k: nat): (r: string)
    ensures |r| == k
    ensures forall i :: 0 <= i < k ==> r[i] == c
  {
    seq(k, i => c)
  }

  /** `s.padStart(width, fill)`: `fill` repeated in front of `s` up to `width`
      characters; `s` itself when it is already that long. */
  function PadStart(s: string, width: nat, fill: char): (r: string)
    ensures |r| == if |s| >= width then |s| else width
    ensures r[|r| - |s|..] == s
    ensures forall i :: 0 <= i < |r| - |s| ==> r[i] == fill
  {
    if |s| >= width then s else Repeat(fill, width - |s|) + s
  }

  /** A non-empty text that starts with '0' only when it is "0" itself, as
      every `NumberText` is. */
  predicate Canonical(s: string) {
    |s| >= 1 && (s[0] == '0' ==> s == "0")
  }

  lemma NumberTextCanonical(n: int)
    ensures Canonical(NumberText(n))
  {
  }

  /** Zero padding loses nothing on canonical texts: two different ones never
      pad to the same string. */
  lemma PadStartInjective(s: string, t: string, width: nat)
    requires Canonical(s) && Canonical(t)
    requires PadStart(s, width, '0') == PadStart(t, width, '0')
    ensures s == t
  {
    var p := PadStart(s, width, '0');
    if |s| == |t| {
      assert s == p[|p| - |s|..] == t;
    }
  }
}
