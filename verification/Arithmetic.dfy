/** The few facts about products and powers that the models need. */
module Arithmetic {
  function Pow10(n: nat): (p: nat)
    ensures p > 0
  {
    if n == 0 then 1 else 10 * Pow10(n - 1)
  }

  lemma PositiveProduct(a: int, b: int)
    requires a > 0 && b > 0
    ensures a * b > 0
  {}

  lemma Associate(a: int, b: int, c: int)
    ensures a * b * c == a * (b * c)
  {}

  lemma Distribute(x: int, y: int, z: int)
    ensures (x + y) * z == x * z + y * z
  {}

  lemma Ordered(x: int, y: int, z: int)
    requires z > 0
    ensures x <= y ==> x * z <= y * z
    ensures x < y <==> x * z < y * z
    ensures x < y ==> x * z + z <= y * z
  {
    Distribute(x, y - x, z);
    if x < y {
      OneAtLeast(y - x, z);
    } else {
      assert (x - y) * z >= 0;
      Distribute(x - y, y, z);
    }
  }

  lemma OneAtLeast(d: int, z: int)
    requires d >= 1 && z > 0
    ensures d * z >= z
  {
    Distribute(d - 1, 1, z);
    assert (d - 1) * z >= 0;
  }

  lemma DivMod(n: int, d: int)
    requires d > 0
    ensures n / d * d <= n < n / d * d + d
    ensures n / d * d == n - n % d
  {}

  lemma {:induction false} Pow10Adds(m: nat, n: nat)
    ensures Pow10(m + n) == Pow10(m) * Pow10(n)
  {
    if m > 0 {
      Pow10Adds(m - 1, n);
      Associate(10, Pow10(m - 1), Pow10(n));
    }
  }

  function Pow2(n: nat): (p: nat)
    ensures p > n
  {
    if n == 0 then 1 else 2 * Pow2(n - 1)
  }

  lemma {:induction false} Pow2Adds(m: nat, n: nat)
    ensures Pow2(m + n) == Pow2(m) * Pow2(n)
  {
    if m > 0 {
      Pow2Adds(m - 1, n);
      Associate(2, Pow2(m - 1), Pow2(n));
    }
  }
}
