/** The upper half of a 64x64-bit product, from 32-bit limbs. */
module PortableArithmetic {
  import opened Arithmetic
  import opened Common

  const LIMB := 0x1_0000_0000
  /** The two's-complement value of a 64-bit pattern. */
  function Signed(x: uint64): int { if x < SIGN then x else x - TWO64 }

  lemma SmallProduct(a: nat, b: nat)
    requires a < LIMB && b < LIMB
    ensures 0 <= a * b <= (LIMB - 1) * (LIMB - 1)
  {
    MonotoneProduct(a, LIMB - 1, b, LIMB - 1);
  }

  lemma MonotoneProduct(a: nat, x: nat, b: nat, y: nat)
    requires a <= x && b <= y
    ensures 0 <= a * b <= x * y
  {
    if a > 0 {
      AtLeast(a, b);
    }
    if a < x {
      NextMultiple(a, x, b);
    }
    if b < y {
      NextMultiple(b, y, x);
    }
  }

  lemma LimbProduct(lh: nat, ll: nat, rh: nat, rl: nat)
    ensures (lh * LIMB + ll) * (rh * LIMB + rl) == (lh * rh) * TWO64 + (ll * rh + lh * rl) * LIMB + ll * rl
  {
    var r := rh * LIMB + rl;
    Distributes(lh * LIMB, ll, r);
    assert (lh * LIMB) * r == lh * rh * LIMB * LIMB + lh * rl * LIMB;
    assert ll * r == ll * rh * LIMB + ll * rl;
  }

  lemma ProductFits(l: uint64, r: uint64)
    ensures 0 <= l * r <= MAX64 * MAX64
  {
    MonotoneProduct(l, MAX64, r, MAX64);
  }

  /** The limbs multiplied out: no partial product leaves 64 bits. */
  lemma LimbsFit(l: uint64, r: uint64)
    ensures 0 <= (l % LIMB) * (r % LIMB) < TWO64 && 0 <= (l % LIMB) * (r / LIMB) < TWO64
    ensures 0 <= (l / LIMB) * (r % LIMB) < TWO64 && 0 <= (l / LIMB) * (r / LIMB) < TWO64
    ensures l * r == ((l / LIMB) * (r / LIMB)) * TWO64
                     + ((l % LIMB) * (r / LIMB) + (l / LIMB) * (r % LIMB)) * LIMB + (l % LIMB) * (r % LIMB)
    ensures 0 <= l * r <= MAX64 * MAX64
  {
    SmallProduct(l % LIMB, r % LIMB);
    SmallProduct(l % LIMB, r / LIMB);
    SmallProduct(l / LIMB, r % LIMB);
    SmallProduct(l / LIMB, r / LIMB);
    LimbProduct(l / LIMB, l % LIMB, r / LIMB, r % LIMB);
    ProductFits(l, r);
  }

  /** `multiply_high_unsigned_64`: no carry is lost, and the last sum does not wrap. */
  method MultiplyHighUnsigned(left: uint64, right: uint64) returns (r: uint64)
    ensures r == left * right / TWO64
  {
    LimbsFit(left, right);
    r := AddCarries((left % LIMB) * (right % LIMB), (left % LIMB) * (right / LIMB), (left / LIMB) * (right % LIMB),
                    (left / LIMB) * (right / LIMB), left * right);
  }

  /** The carries out of the low word, and the upper word they complete. */
  method AddCarries(lowProduct: uint64, crossLeft: uint64, crossRight: uint64, highProduct: uint64, ghost product: int)
    returns (r: uint64)
    requires product == highProduct * TWO64 + (crossLeft + crossRight) * LIMB + lowProduct
    requires 0 <= product <= MAX64 * MAX64
    ensures r == product / TWO64
  {
    var low, carry := lowProduct, 0;
    var previous := low;
    low := (low + crossLeft * LIMB % TWO64) % TWO64;
    carry := carry + if low < previous then 1 else 0;
    previous := low;
    low := (low + crossRight * LIMB % TWO64) % TWO64;
    carry := carry + if low < previous then 1 else 0;
    Carries(lowProduct, crossLeft, crossRight, highProduct, low, carry, product);
    r := (highProduct + crossLeft / LIMB + crossRight / LIMB + carry) % TWO64;
  }

  /** The carries and the low word make up the sum of the low product and the two shifted cross terms. */
  lemma Carries(lowProduct: uint64, crossLeft: uint64, crossRight: uint64, highProduct: uint64,
                low: int, carry: int, product: int)
    requires product == highProduct * TWO64 + (crossLeft + crossRight) * LIMB + lowProduct
    requires 0 <= product <= MAX64 * MAX64
    requires
      var first := (lowProduct + crossLeft * LIMB % TWO64) % TWO64;
      && low == (first + crossRight * LIMB % TWO64) % TWO64
      && carry == (if first < lowProduct then 1 else 0) + (if low < first then 1 else 0)
    ensures
      var high := highProduct + crossLeft / LIMB + crossRight / LIMB + carry;
      high == product / TWO64 && 0 <= high < TWO64
  {
    var first := (lowProduct + crossLeft * LIMB % TWO64) % TWO64;
    Shifted(crossLeft);
    Shifted(crossRight);
    OneCarry(lowProduct, crossLeft * LIMB % TWO64, first);
    OneCarry(first, crossRight * LIMB % TWO64, low);
    var high := highProduct + crossLeft / LIMB + crossRight / LIMB + carry;
    assert product == high * TWO64 + low;
    QuotientIs(product, TWO64, high, low);
  }

  /** Shifting left by one limb keeps the low limb and loses the high one. */
  lemma Shifted(x: uint64)
    ensures x * LIMB == (x / LIMB) * TWO64 + x * LIMB % TWO64
  {
    var high, low := x / LIMB, x % LIMB;
    assert x * LIMB == high * TWO64 + low * LIMB;
    QuotientIs(x * LIMB, TWO64, high, low * LIMB);
  }

  /** A wrapped sum is smaller than its operand exactly when a carry was lost. */
  lemma OneCarry(a: uint64, b: uint64, sum: int)
    requires sum == (a + b) % TWO64
    ensures a + b == sum + if sum < a then TWO64 else 0
  {
  }

  /** `multiply_high_signed_64`: the upper half of the signed product, modulo 2^64. */
  method MultiplyHighSigned(left: uint64, right: uint64) returns (r: uint64)
    ensures r == (Signed(left) * Signed(right) / TWO64) % TWO64
  {
    var high := MultiplyHighUnsigned(left, right);
    SignedFloor(left, right, high);
    r := Correct(left, right, high, Signed(left) * Signed(right) / TWO64);
  }

  /** A negative operand takes the other operand off the upper half. */
  method Correct(left: uint64, right: uint64, unsigned: uint64, ghost signed: int) returns (r: uint64)
    requires signed == unsigned - Correction(left, right)
    ensures r == signed % TWO64
  {
    var high := unsigned;
    if left >= SIGN {
      high := (high - right) % TWO64;
    }
    if right >= SIGN {
      high := (high - left) % TWO64;
    }
    r := high;
  }

  /** What the upper half of the signed product falls short of that of the unsigned one. */
  function Correction(left: uint64, right: uint64): int {
    (if left >= SIGN then right else 0) + (if right >= SIGN then left else 0)
    - if left >= SIGN && right >= SIGN then TWO64 else 0
  }

  lemma SignedFloor(left: uint64, right: uint64, unsigned: int)
    requires unsigned == left * right / TWO64
    ensures Signed(left) * Signed(right) / TWO64 == unsigned - Correction(left, right)
  {
    var a, b := if left >= SIGN then 1 else 0, if right >= SIGN then 1 else 0;
    SignedProduct(left, right, a, b);
    FloorShifts(left * right, TWO64, Correction(left, right));
  }

  lemma SignedProduct(left: int, right: int, a: int, b: int)
    ensures (left - a * TWO64) * (right - b * TWO64) ==
            left * right - (a * right + b * left - a * b * TWO64) * TWO64
  {
    var r := right - b * TWO64;
    Distributes(left, -(a * TWO64), r);
    assert left * r == left * right - b * left * TWO64;
    assert a * TWO64 * r == a * right * TWO64 - a * b * TWO64 * TWO64;
  }
}
