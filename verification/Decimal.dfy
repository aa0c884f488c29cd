/** Decimal notation of integers, as both `json.dumps` and the LVM printer use it. */
module Decimal {
  predicate IsDigit(c: char) { '0' <= c <= '9' }

  function Digit(d: nat): (c: char)
    requires d < 10
    ensures IsDigit(c) && c as int - '0' as int == d
  {
    ('0' as int + d) as char
  }

  function Digits(n: nat): (s: string)
    ensures |s| > 0 && forall i :: 0 <= i < |s| ==> IsDigit(s[i])
  {
    if n < 10 then [Digit(n)] else Digits(n / 10) + [Digit(n % 10)]
  }

  function Show(n: int): (s: string)
    ensures |s| > 0 && (s[0] == '-' || IsDigit(s[0]))
  {
    if n < 0 then "-" + Digits(-n) else Digits(n)
  }

  predicate AllDigits(s: string) { forall i :: 0 <= i < |s| ==> IsDigit(s[i]) }

  function Value(s: string): nat
    requires AllDigits(s)
  {
    if s == [] then 0
    else
      assert IsDigit(s[|s| - 1]);
      10 * Value(s[..|s| - 1]) + (s[|s| - 1] as int - '0' as int)
  }

  lemma {:induction false} ValueOfDigits(n: nat)
    ensures Value(Digits(n)) == n
  {
    if n >= 10 {
      ValueOfDigits(n / 10);
      assert Digits(n)[..|Digits(n)| - 1] == Digits(n / 10);
    }
  }

  // The text after a number must not continue it.
  predicate Stops(r: string) { r == "" || !IsDigit(r[0]) }

  // The character at `k`, a blank past the end.
  function At(s: string, k: nat): char { if k < |s| then s[k] else ' ' }

  lemma AtConcat(a: string, r: string, k: nat)
    ensures At(a + r, k) == if k < |a| then a[k] else At(r, k - |a|)
  {
  }

  lemma NotShorter(a: string, b: string, r: string, t: string)
    requires a + r == b + t && AllDigits(b) && Stops(r)
    ensures |b| <= |a|
  {
    AtConcat(a, r, |a|);
    AtConcat(b, t, |a|);
  }

  lemma DigitsUnique(n: nat, m: nat, r: string, t: string)
    requires Digits(n) + r == Digits(m) + t && Stops(r) && Stops(t)
    ensures n == m && r == t
  {
    var a, b := Digits(n), Digits(m);
    NotShorter(a, b, r, t);
    NotShorter(b, a, t, r);
    assert (a + r)[..|a|] == a && (b + t)[..|b|] == b;
    assert (a + r)[|a|..] == r && (b + t)[|b|..] == t;
    ValueOfDigits(n);
    ValueOfDigits(m);
  }

  lemma ShowUnique(n: int, m: int, r: string, t: string)
    requires Show(n) + r == Show(m) + t && Stops(r) && Stops(t)
    ensures n == m && r == t
  {
    var x, y := Show(n), Show(m);
    assert (x + r)[0] == x[0] && (y + t)[0] == y[0];
    if n < 0 {
      SignUnique(Digits(-n), x, Digits(-m), y, r, t);
      DigitsUnique(-n, -m, r, t);
    } else {
      DigitsUnique(n, m, r, t);
    }
  }

  lemma SignUnique(a: string, x: string, b: string, y: string, r: string, t: string)
    requires x == "-" + a && y == "-" + b && x + r == y + t
    ensures a + r == b + t
  {
    assert (x + r)[1..] == a + r;
    assert (y + t)[1..] == b + t;
  }
}
