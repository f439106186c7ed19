/** Decimal rendering of counters, as `format!("{n}")` writes it, and the two
    facts every generated identifier rests on: the rendering is injective, and
    so is appending it after a dash to an arbitrary prefix. */
module Decimal {

  const DIGITS: string := "0123456789"

  predicate IsDigit(c: char) {
    c in DIGITS
  }

  function Show(n: nat): (s: string)
    ensures s != ""
    ensures forall i :: 0 <= i < |s| ==> IsDigit(s[i])
  {
    if n < 10 then [DIGITS[n]] else Show(n / 10) + [DIGITS[n % 10]]
  }

  function DigitValue(c: char): nat {
    if '0' <= c <= '9' then c as int - '0' as int else 0
  }

  // The number a digit string denotes.
  function Value(s: string): nat {
    if s == "" then 0 else 10 * Value(s[..|s| - 1]) + DigitValue(s[|s| - 1])
  }

  lemma {:induction false} ValueShow(n: nat)
    ensures Value(Show(n)) == n
  {
    if n < 10 {
      assert [DIGITS[n]][..0] == "";
    } else {
      ValueShow(n / 10);
      var s := Show(n);
      assert s[..|s| - 1] == Show(n / 10);
      assert DigitValue(DIGITS[n % 10]) == n % 10;
    }
  }

  lemma ShowInjective(m: nat, n: nat)
    ensures Show(m) == Show(n) <==> m == n
  {
    ValueShow(m);
    ValueShow(n);
  }

  // The dash after the longer prefix would have to be a digit of the shorter
  // one's counter.
  lemma LongerPrefixDiffers(a: string, m: nat, b: string, n: nat)
    requires |a| < |b|
    ensures a + "-" + Show(m) != b + "-" + Show(n)
  {
    var x, y := a + "-" + Show(m), b + "-" + Show(n);
    assert y[|b|] == '-';
    if |b| < |x| {
      assert x[|b|] == Show(m)[|b| - |a| - 1];
      assert !IsDigit('-');
    }
  }

  // Whatever dashes and digits the prefixes hold, the last dash separates them
  // from the counter.
  lemma DashedInjective(a: string, m: nat, b: string, n: nat)
    ensures a + "-" + Show(m) == b + "-" + Show(n) <==> a == b && m == n
  {
    if |a| < |b| {
      LongerPrefixDiffers(a, m, b, n);
    } else if |b| < |a| {
      LongerPrefixDiffers(b, n, a, m);
    } else if a + "-" + Show(m) == b + "-" + Show(n) {
      var x, y := a + "-" + Show(m), b + "-" + Show(n);
      assert a == x[..|a|] && b == y[..|b|];
      assert Show(m) == x[|a| + 1..] && Show(n) == y[|b| + 1..];
      ShowInjective(m, n);
    }
  }
}
