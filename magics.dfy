// Magic numbers (src/defs/magic.rs): a perfect-hash key from the blockers
// of a slider to a slot of the attack table.
module Magics {
  import opened BitBoards

  /// `Magic`: the blocker mask, the magic multiplier (a u64), the right
  /// shift and the square's offset into the shared attack table. The
  /// `mask`, `magic`, `shift` and `offset` accessors are the fields.
  datatype Magic = Magic(mask: BitBoard, magic: nat, shift: nat, offset: nat)

  /// The source's field widths: a u64 multiplier, and a shift the `>>` on
  /// u64 accepts.
  predicate WellFormed(m: Magic)
  {
    m.magic < U64_LIMIT && m.shift < 64
  }

  /// If x < a * b then x / b < a.
  lemma DivBound(x: nat, a: nat, b: nat)
    requires b > 0 && x < a * b
    ensures x / b < a
  {
    if x / b >= a {
      MulMonotone(b, a, x / b);
    }
  }

  /// `Magic::calculate_key`: the masked occupancy as a u64, multiplied by
  /// the magic with u64 wrap-around (`wrapping_mul`), shifted right. The key
  /// has 64 - shift bits.
  function CalculateKey(occ: BitBoard, mask: BitBoard, magic: nat, shift: nat): (key: nat)
    requires magic < U64_LIMIT && shift < 64
    ensures key < Pow2(64 - shift)
  {
    var hash := WrappingMul(ToU64(occ * mask), magic);
    ShrBound(hash, shift);
    Shr(hash, shift)
  }

  /// `wrapping_mul` on u64, as b wrapped additions of a: the product
  /// modulo 2^64 (WrappingMulIsProduct), written without a product of two
  /// variables.
  function WrappingMul(a: nat, b: nat): (r: nat)
    ensures r < U64_LIMIT
  {
    if b == 0 then 0 else (WrappingMul(a, b - 1) + a) % U64_LIMIT
  }

  /// Adding a to a number modulo m gives what adding a to its remainder
  /// does.
  lemma ModAdd(x: nat, a: nat, m: nat)
    requires m > 0
    ensures (x % m + a) % m == (x + a) % m
  {
    var q := x / m;
    assert x + a == q * m + (x % m + a);
    var q2 := (x % m + a) / m;
    var r2 := (x % m + a) % m;
    assert x + a == (q + q2) * m + r2;
    DivUnique(x + a, m, q + q2, r2);
  }

  /// WrappingMul is the product of a and b modulo 2^64.
  lemma {:induction false} WrappingMulIsProduct(a: nat, b: nat)
    ensures WrappingMul(a, b) == (a * b) % U64_LIMIT
  {
    if b > 0 {
      WrappingMulIsProduct(a, b - 1);
      ModAdd(a * (b - 1), a, U64_LIMIT);
      assert a * (b - 1) + a == a * b;
    }
  }

  /// `>>` on a u64, as `shift` halvings (ShrIsDiv: the quotient by
  /// 2^shift).
  function Shr(v: nat, shift: nat): (r: nat)
    ensures r <= v
  {
    if shift == 0 then v else Shr(v, shift - 1) / 2
  }

  /// Shr divides by 2^shift.
  lemma {:induction false} ShrIsDiv(v: nat, shift: nat)
    ensures Shr(v, shift) == v / Pow2(shift)
  {
    if shift > 0 {
      ShrIsDiv(v, shift - 1);
      DivPow2Step(v, shift - 1);
    }
  }

  /// A u64 shifted right by `shift` has 64 - shift bits.
  lemma ShrBound(v: nat, shift: nat)
    requires v < U64_LIMIT && shift <= 64
    ensures Shr(v, shift) < Pow2(64 - shift)
  {
    ShrIsDiv(v, shift);
    ShiftBound(v, shift);
  }

  lemma ShiftBound(hash: nat, shift: nat)
    requires hash < U64_LIMIT && shift <= 64
    ensures hash / Pow2(shift) < Pow2(64 - shift)
  {
    Pow2At64();
    Pow2Add(64 - shift, shift);
    DivBound(hash, Pow2(64 - shift), Pow2(shift));
  }

  /// The key is `((occ & mask) * magic mod 2^64) >> shift`, written with
  /// ordinary arithmetic.
  lemma CalculateKeyFormula(occ: BitBoard, mask: BitBoard, magic: nat, shift: nat)
    requires magic < U64_LIMIT && shift < 64
    ensures CalculateKey(occ, mask, magic, shift) == (ToU64(occ * mask) * magic) % U64_LIMIT / Pow2(shift)
  {
    WrappingMulIsProduct(ToU64(occ * mask), magic);
    ShrIsDiv(WrappingMul(ToU64(occ * mask), magic), shift);
  }

  /// Occupancies that agree on the mask get the same key: squares outside
  /// the mask are irrelevant.
  lemma KeyIgnoresUnmasked(occ1: BitBoard, occ2: BitBoard, mask: BitBoard, magic: nat, shift: nat)
    requires magic < U64_LIMIT && shift < 64
    requires occ1 * mask == occ2 * mask
    ensures CalculateKey(occ1, mask, magic, shift) == CalculateKey(occ2, mask, magic, shift)
  {
  }

  /// `Magic::key`: the calculated key moved to the square's offset; it lands
  /// in the square's own 2^(64 - shift) slots.
  function Key(m: Magic, occ: BitBoard): (key: nat)
    requires WellFormed(m)
    ensures m.offset <= key < m.offset + Pow2(64 - m.shift)
  {
    CalculateKey(occ, m.mask, m.magic, m.shift) + m.offset
  }
}
