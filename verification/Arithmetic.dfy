/** Multiplication, division and remainder, as index computations need them. */
module Arithmetic {

  lemma MulMonotone(n: nat, a: nat, b: nat)
    requires a <= b
    ensures a * n <= b * n
  {}

  lemma MulPositive(a: nat, b: nat)
    requires 1 <= a && 1 <= b
    ensures 1 <= a * b
  {}

  function Quotient(a: nat, b: nat): nat
    requires 0 < b
  {
    a / b
  }

  lemma DivModParts(a: nat, n: nat)
    requires 1 <= n
    ensures a / n * n + a % n == a
  {}

  /** A number written with digits `a` and `x` in radix `n` determines both. */
  lemma MixedRadixIsInjective(n: nat, a: nat, x: nat, b: nat, y: nat)
    requires x < n && y < n && a * n + x == b * n + y
    ensures a == b && x == y
  {
    if a < b { MulMonotone(n, a + 1, b); }
    if b < a { MulMonotone(n, b + 1, a); }
  }

  /** Such numbers are ordered by their higher digits first. */
  lemma MixedRadixOrder(n: nat, a: nat, x: nat, b: nat, y: nat)
    requires x < n && y < n
    ensures a * n + x < b * n + y <==> a < b || (a == b && x < y)
  {
    if a < b { MulMonotone(n, a + 1, b); }
    if b < a { MulMonotone(n, b + 1, a); }
  }

  lemma DivModOfRadix(n: nat, a: nat, x: nat)
    requires x < n
    ensures (a * n + x) / n == a && (a * n + x) % n == x
  {
    var v := a * n + x;
    DivModParts(v, n);
    MixedRadixIsInjective(n, a, x, v / n, v % n);
  }

  lemma DivUnique(v: nat, n: nat, a: nat)
    requires 0 < n && a * n <= v < a * n + n
    ensures v / n == a
  {
    DivModOfRadix(n, a, v - a * n);
  }

  lemma SmallRemainder(a: nat, n: nat)
    requires a < n
    ensures a % n == a
  {}

  lemma WrapRemainder(a: nat, n: nat)
    requires a < n
    ensures (a + n) % n == a
  {}

  lemma AddMultiples(n: nat, a: nat, b: nat)
    ensures a * n + b * n == (a + b) * n
  {}

  /** Multiples of `unit` below `n * unit`, added up and brought back below it. */
  lemma WrapMultiple(unit: nat, n: nat, a: nat, b: nat)
    requires a < n && b < n && 0 < n * unit
    ensures (a * unit + b * unit) % (n * unit) == (if a + b < n then a + b else a + b - n) * unit
  {
    AddMultiples(unit, a, b);
    if a + b < n {
      MulMonotone(unit, a + b + 1, n);
      SmallRemainder((a + b) * unit, n * unit);
    } else {
      AddMultiples(unit, a + b - n, n);
      MulMonotone(unit, a + b - n + 1, n);
      WrapRemainder((a + b - n) * unit, n * unit);
    }
  }
}
