/** Branch targets from their encoded immediates. */
module BranchTargets {
  import opened Arithmetic
  import opened Common

  /** A `std::int64_t`. */
  type int64 = x: int | -0x8000_0000_0000_0000 <= x < 0x8000_0000_0000_0000

  /** The unsigned pattern of a signed value, and `std::uint64_t{0} - value`. */
  function Pattern(x: int64): uint64 { if x < 0 then x + TWO64 else x }
  function Negated(x: uint64): uint64 { if x == 0 then 0 else TWO64 - x }

  function CheckedAddSigned(base: uint64, offset: int64): Result<uint64> {
    if offset >= 0 then CheckedAdd(base, offset)
    else
      var magnitude := Negated(Pattern(offset));
      if magnitude > base then Err(ArithmeticUnderflow) else Ok(base - magnitude)
  }

  /** The checked sum is the exact one, or the error on the side it leaves the address space. */
  lemma CheckedAddSignedIsExact(base: uint64, offset: int64)
    ensures CheckedAddSigned(base, offset) ==
            if base + offset < 0 then Err(ArithmeticUnderflow)
            else if base + offset > MAX64 then Err(ArithmeticOverflow)
            else Ok(base + offset)
  {
  }

  /** `scaled_signed`. */
  function ScaledSigned(value: int64, scale: uint64): Result<int64>
    requires scale > 0
  {
    if value >= 0 then
      if value > (SIGN - 1) / scale then Err(ArithmeticOverflow)
      else
        QuotientTest(value, scale, SIGN - 1);
        Ok(value * scale)
    else
      var magnitude := Negated(Pattern(value));
      if magnitude > SIGN / scale then Err(ArithmeticUnderflow)
      else
        QuotientTest(magnitude, scale, SIGN);
        var scaled := magnitude * scale;
        if scaled == SIGN then Ok(-SIGN) else Ok(-scaled)
  }

  lemma ScaledSignedIsExact(value: int64, scale: uint64)
    requires scale > 0
    ensures ScaledSigned(value, scale) ==
            if value * scale >= SIGN then Err(ArithmeticOverflow)
            else if value * scale < -SIGN then Err(ArithmeticUnderflow)
            else Ok(value * scale)
  {
    if value >= 0 {
      QuotientTest(value, scale, SIGN - 1);
    } else {
      var v: int := value;
      QuotientTest(-v, scale, SIGN);
      Distributes(-v, v, scale);
    }
  }

  /** `relative_target`. */
  function RelativeTarget(address: uint64, immediate: int64, scale: uint64): Result<uint64>
    requires scale > 0
  {
    var offset := ScaledSigned(immediate, scale);
    if offset.Err? then Err(offset.code) else CheckedAddSigned(address, offset.value)
  }

  /** `page_relative_target`. */
  function PageRelativeTarget(address: uint64, immediate: int64): Result<uint64> {
    RelativeTarget(address - address % 0x1000, immediate, 0x1000)
  }

  /** A target is found exactly when it lies in the address space at a distance that can be represented. */
  lemma RelativeTargetIsExact(address: uint64, immediate: int64, scale: uint64, target: uint64)
    requires scale > 0
    ensures RelativeTarget(address, immediate, scale) == Ok(target) <==>
            -SIGN <= immediate * scale < SIGN && target == address + immediate * scale
  {
    ScaledSignedIsExact(immediate, scale);
    if ScaledSigned(immediate, scale).Ok? {
      CheckedAddSignedIsExact(address, ScaledSigned(immediate, scale).value);
    }
  }

  /** `sign_extend` of the low `bits` bits. */
  function SignExtend(value: uint64, bits: nat): int64
    requires 0 < bits < 64
  {
    PowerIsPositive(bits);
    PowerGrows(bits, 63);
    Power64();
    assert Power(64) == 2 * Power(63);
    var low := value % Power(bits);
    if low >= Power(bits - 1) then low - Power(bits) else low
  }

  /** The extension is the one number in the signed range of the field that agrees with the value in its low bits. */
  lemma SignExtendExactly(value: uint64, bits: nat, x: int)
    requires 0 < bits < 64
    ensures SignExtend(value, bits) == x <==>
            0 <= x + Power(bits - 1) && x < Power(bits - 1) && (value - x) % Power(bits) == 0
  {
    PowerIsPositive(bits);
    var n, low := Power(bits), value % Power(bits);
    assert n == 2 * Power(bits - 1);
    var r := SignExtend(value, bits);
    SameRemainder(value, r, n);
    if 0 <= x + Power(bits - 1) && x < Power(bits - 1) && (value - x) % n == 0 {
      OnlyOneInRange(value, r, x, n);
    }
  }

  lemma SameRemainder(value: int, x: int, n: int)
    requires n > 0 && (x == value % n || x == value % n - n)
    ensures (value - x) % n == 0
  {
    var q := value / n;
    if x == value % n {
      QuotientIs(value - x, n, q, 0);
    } else {
      assert value - x == q * n + n == (q + 1) * n;
      QuotientIs(value - x, n, q + 1, 0);
    }
  }

  lemma OnlyOneInRange(value: int, x: int, y: int, n: int)
    requires n > 0 && (value - x) % n == 0 && (value - y) % n == 0 && -n < x - y < n
    ensures x == y
  {
    if x >= y {
      QuotientIs(value - y, n, (value - x) / n, x - y);
    } else {
      QuotientIs(value - x, n, (value - y) / n, y - x);
    }
  }

  /** The signed numbers that `bits` bits can hold. */
  predicate FitsField(x: int, bits: nat) {
    0 < bits < 64 && 0 <= x + Power(bits - 1) && x < Power(bits - 1)
  }

  /** The immediate field that stands for a signed number. */
  function Field(x: int, bits: nat): nat
    requires FitsField(x, bits)
  {
    if x < 0 then x + Power(bits) else x
  }

  /** Reading a field back gives the number it was made from, whatever stands in the bits above it. */
  lemma FieldRoundTrip(x: int, bits: nat, above: nat)
    requires FitsField(x, bits)
    requires above * Power(bits) + Field(x, bits) < TWO64
    ensures SignExtend(above * Power(bits) + Field(x, bits), bits) == x
  {
    PowerIsPositive(bits);
    QuotientIs(above * Power(bits) + Field(x, bits), Power(bits), above, Field(x, bits));
  }

  /** Every word-aligned target within reach of a `B` or `BL` is decoded from its 26-bit field. */
  lemma BranchRoundTrip(address: uint64, target: uint64, word: uint64)
    requires (target - address) % 4 == 0 && FitsField((target - address) / 4, 26)
    requires word % 0x400_0000 == Field((target - address) / 4, 26)
    ensures RelativeTarget(address, SignExtend(word, 26), 4) == Ok(target)
  {
    var x := (target - address) / 4;
    Power26();
    FieldRoundTrip(x, 26, word / 0x400_0000);
    RelativeTargetIsExact(address, x, 4, target);
  }

  lemma Power26()
    ensures Power(25) == 0x200_0000 && Power(26) == 0x400_0000
  {
    Power8(0);
    Power8(8);
    Power8(16);
  }

  /** Every page within reach of an `ADRP` is decoded from its 21-bit field, wherever in its own page the
      instruction stands. */
  lemma PageRoundTrip(address: uint64, page: uint64, word: uint64)
    requires page % 0x1000 == 0 && FitsField((page - (address - address % 0x1000)) / 0x1000, 21)
    requires word % 0x20_0000 == Field((page - (address - address % 0x1000)) / 0x1000, 21)
    ensures PageRelativeTarget(address, SignExtend(word, 21)) == Ok(page)
  {
    hide RelativeTarget;
    var x := (page - (address - address % 0x1000)) / 0x1000;
    Power21();
    FieldRoundTrip(x, 21, word / 0x20_0000);
    RelativeTargetIsExact(address - address % 0x1000, x, 0x1000, page);
  }

  lemma Power21()
    ensures Power(20) == 0x10_0000 && Power(21) == 0x20_0000
  {
    Power8(4);
    Power8(12);
    assert Power(2) == 4;
    assert Power(4) == 16;
  }
}
