/** Multiplication and division facts that the solver does not find by itself. */
module Arithmetic {
  /** The weight of the sign bit of a 64-bit number. */
  const SIGN := 0x8000_0000_0000_0000

  /** Two to the power of `n`. */
  function Power(n: nat): nat { if n == 0 then 1 else 2 * Power(n - 1) }

  lemma Distributes(a: int, b: int, d: int)
    ensures (a + b) * d == a * d + b * d
  {
  }

  lemma {:induction false} AtLeast(k: int, d: int)
    requires k >= 1 && d >= 0
    ensures k * d >= d
    decreases k
  {
    if k > 1 {
      AtLeast(k - 1, d);
      Distributes(k - 1, 1, d);
    }
  }

  /** A larger multiple is larger by at least one step. */
  lemma NextMultiple(a: int, b: int, d: int)
    requires a < b && d >= 0
    ensures a * d + d <= b * d
  {
    AtLeast(b - a, d);
    Distributes(a, b - a, d);
  }

  /** Quotient and remainder are unique. */
  lemma QuotientIs(x: int, d: int, q: int, r: int)
    requires d > 0 && 0 <= r < d && x == q * d + r
    ensures x / d == q && x % d == r
  {
    var k := x / d;
    assert x == k * d + x % d;
    if k < q {
      NextMultiple(k, q, d);
    } else if q < k {
      NextMultiple(q, k, d);
    }
  }

  lemma MultiplesAreApart(a: nat, b: nat, d: nat)
    requires d > 0 && a % d == 0 && b % d == 0 && a < b + d
    ensures a <= b
  {
    assert a == (a / d) * d && b == (b / d) * d;
    if a / d > b / d {
      NextMultiple(b / d, a / d, d);
    }
  }

  /** Taking the remainder off leaves a multiple, less than one step below. */
  lemma RoundsDown(x: nat, d: nat)
    requires d > 0
    ensures (x - x % d) % d == 0 && x - d < x - x % d <= x
  {
    assert x - x % d == (x / d) * d + 0;
    QuotientIs(x - x % d, d, x / d, 0);
  }

  /** The division test for a product that stays below a limit. */
  lemma QuotientTest(m: nat, d: nat, limit: nat)
    requires d > 0
    ensures m <= limit / d <==> m * d <= limit
  {
    var q := limit / d;
    assert limit == q * d + limit % d;
    if m <= q {
      if m < q {
        NextMultiple(m, q, d);
      }
    } else {
      NextMultiple(q, m, d);
    }
  }

  /** Subtracting whole multiples of the divisor shifts the floor and keeps the remainder. */
  lemma FloorShifts(x: int, d: int, k: int)
    requires d > 0
    ensures (x - k * d) / d == x / d - k
  {
    Distributes(x / d, -k, d);
    QuotientIs(x - k * d, d, x / d - k, x % d);
  }

  lemma Power8(n: nat)
    ensures Power(n + 8) == 256 * Power(n)
  {
    assert Power(n + 2) == 4 * Power(n);
    assert Power(n + 4) == 4 * Power(n + 2);
    assert Power(n + 6) == 4 * Power(n + 4);
  }

  lemma Power64()
    ensures Power(64) == 0x1_0000_0000_0000_0000
  {
    Power8(0);
    Power8(8);
    Power8(16);
    Power8(24);
    Power8(32);
    Power8(40);
    Power8(48);
    Power8(56);
  }

  lemma {:induction false} PowerIsPositive(n: nat)
    ensures Power(n) > 0
  {
    if n > 0 {
      PowerIsPositive(n - 1);
    }
  }

  lemma {:induction false} PowerGrows(m: nat, n: nat)
    requires m <= n
    ensures Power(m) <= Power(n)
    decreases n - m
  {
    PowerIsPositive(n);
    if m < n {
      PowerGrows(m, n - 1);
    }
  }
}
