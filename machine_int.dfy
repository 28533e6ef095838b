/** The C integer types the decoder helpers use (u8, u32), unsigned
    32-bit wrap-around, and the kernel's ALIGN macro evaluated on a u32. */
module MachineInt {

  const U32_LIMIT: nat := 0x1_0000_0000

  type U8 = x: int | 0 <= x < 0x100
  type U32 = x: int | 0 <= x < 0x1_0000_0000

  /** The value a C `u32` holds after an unsigned computation whose
      mathematical result is `x`: reduction modulo 2^32. */
  function Wrap32(x: nat): (r: U32)
    ensures x < U32_LIMIT ==> r == x
    ensures r <= x
  {
    x % U32_LIMIT
  }

  /** Reducing a partial sum first does not change a wrapped sum. */
  lemma Wrap32Add(x: nat, k: nat)
    ensures Wrap32(Wrap32(x) + k) == Wrap32(x + k)
  {
    var q := x / U32_LIMIT;
    assert x + k == Wrap32(x) + k + q * U32_LIMIT;
  }

  /** The alignments ALIGN is used with: the positive divisors of 2^32,
      that is, the powers of two up to 2^31. */
  predicate IsAlignment(a: nat)
  {
    0 < a <= U32_LIMIT / 2 && U32_LIMIT % a == 0
  }

  /** ALIGN(x, a) for a `u32` x: `(x + a - 1) & ~(a - 1)`, where the sum
      is taken in u32. For a power of two `a`, clearing the low bits
      rounds the sum down to a multiple of `a`. */
  function Align32(x: U32, a: nat): (r: U32)
    requires IsAlignment(a)
    ensures r % a == 0
    ensures x + a - 1 < U32_LIMIT ==> x <= r < x + a
  {
    var s := Wrap32(x + a - 1);
    RoundDownIsMultiple(s, a);
    s - s % a
  }

  /** Rounding down to a multiple of `a` gives a multiple of `a`. */
  lemma RoundDownIsMultiple(s: nat, a: nat)
    requires a > 0
    ensures (s - s % a) % a == 0
  {
    assert s == a * (s / a) + s % a;
    MultipleDivMod(a, s / a);
  }

  /** `a * q` divided by `a` leaves `q` and no remainder. */
  lemma MultipleDivMod(a: nat, q: nat)
    requires a > 0
    ensures (a * q) / a == q && (a * q) % a == 0
  {
    var k := q - (a * q) / a;
    assert a * k == (a * q) % a;
  }
}
