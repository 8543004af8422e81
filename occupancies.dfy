// Enumerating every blocker configuration of a mask (the `Occupancies`
// iterator of src/table_gen/sliders.rs): the k-th configuration keeps the
// mask squares, in ascending order, whose position bit is set in k.
module OccupancyEnum {
  import opened Wrappers
  import opened Squares
  import opened BitBoards

  /// The range of the u16 combination counter.
  const U16_LIMIT: nat := 0x1_0000

  /// The k-th subset of mask: its lowest square is kept when bit 0 of k is
  /// set, and the rest of k picks from the remaining squares the same way.
  function Combination(mask: BitBoard, k: nat): (c: BitBoard)
    ensures c <= mask
    decreases |mask|
  {
    if mask == EMPTY then EMPTY
    else
      var low := ScanForward(mask).value;
      (if k % 2 == 1 then FromSquare(low) else EMPTY) + Combination(mask - {low}, k / 2)
  }

  /// The position of a subset among the enumerated subsets of mask: bit 0
  /// says whether the lowest square is in the subset.
  function CombinationIndex(mask: BitBoard, sub: BitBoard): (k: nat)
    ensures k < Pow2(|mask|)
    decreases |mask|
  {
    if mask == EMPTY then 0
    else
      var low := ScanForward(mask).value;
      var rest := CombinationIndex(mask - {low}, sub - {low});
      assert |mask - {low}| == |mask| - 1;
      assert Pow2(|mask|) == 2 * Pow2(|mask| - 1);
      (if low in sub then 1 else 0) + 2 * rest
  }

  /// Every subset of the mask is the combination at its index.
  lemma {:induction false} CombinationIndexSpec(mask: BitBoard, sub: BitBoard)
    requires sub <= mask
    ensures Combination(mask, CombinationIndex(mask, sub)) == sub
    decreases |mask|
  {
    if mask != EMPTY {
      var low := ScanForward(mask).value;
      var rest := CombinationIndex(mask - {low}, sub - {low});
      var bit := if low in sub then 1 else 0;
      var k := bit + 2 * rest;
      assert CombinationIndex(mask, sub) == k;
      DivUnique(k, 2, rest, bit);
      CombinationIndexSpec(mask - {low}, sub - {low});
      CombinationStep(mask, k);
    }
  }

  /// One level of Combination: bit 0 of k decides the lowest square.
  lemma CombinationStep(mask: BitBoard, k: nat)
    requires mask != EMPTY
    ensures var low := ScanForward(mask).value;
      Combination(mask, k) == (if k % 2 == 1 then FromSquare(low) else EMPTY) + Combination(mask - {low}, k / 2)
  {
  }

  /// Distinct indices below 2^|mask| give distinct subsets: indexing a
  /// subset back gives the index it was made from.
  lemma {:induction false} CombinationRoundTrip(mask: BitBoard, k: nat)
    requires k < Pow2(|mask|)
    ensures CombinationIndex(mask, Combination(mask, k)) == k
    decreases |mask|
  {
    if mask != EMPTY {
      var low := ScanForward(mask).value;
      var rest := Combination(mask - {low}, k / 2);
      assert low !in rest;
      assert Combination(mask, k) - {low} == rest;
      CombinationRoundTrip(mask - {low}, k / 2);
    }
  }

  /// 2^k is a multiple of 2^16 from k = 16 on, so the u16 counter wraps to 0.
  lemma Pow2Wraps(k: nat)
    requires k >= 16
    ensures Pow2(k) % U16_LIMIT == 0
  {
    Pow2Add(16, k - 16);
    Pow2Values();
    DivUnique(Pow2(k), U16_LIMIT, Pow2(k - 16), 0);
  }

  /// Below 16 the count 2^k fits the u16 counter.
  lemma Pow2Fits(k: nat)
    requires k < 16
    ensures Pow2(k) < U16_LIMIT
  {
    Pow2Monotone(k, 15);
    Pow2Values();
  }

  /// While combinations remain the counter is non-zero, so the mask has
  /// fewer than 16 squares.
  lemma CounterBoundsMask(mask: BitBoard, n: nat, current: nat)
    requires n == Pow2(|mask|) % U16_LIMIT && current < n
    ensures |mask| < 16
  {
    if |mask| >= 16 {
      Pow2Wraps(|mask|);
    }
  }

  /// One step of the selection loop keeps the loop invariant: with q the
  /// bits of the combination not yet used, bit 0 of q decides the lowest
  /// remaining square.
  lemma SelectStep(before: BitBoard, q: nat, selected: BitBoard, target: BitBoard)
    requires before != EMPTY
    requires selected + Combination(before, q) == target
    ensures var low := ScanForward(before).value;
      var picked := if q % 2 == 1 then FromSquare(low) else EMPTY;
      (selected + picked) + Combination(before - {low}, q / 2) == target
  {
    CombinationStep(before, q);
  }

  /// Bit idx of v is bit 0 of v shifted down by idx.
  lemma BitStep(v: nat, idx: nat)
    ensures BitSet(v, idx) <==> (v / Pow2(idx)) % 2 == 1
    ensures v / Pow2(idx + 1) == (v / Pow2(idx)) / 2
  {
    DivPow2Step(v, idx);
  }

  /// The body of `Occupancies::next`: walks the mask in ascending order
  /// (`mask.into_iter().enumerate()`) and keeps the idx-th square when
  /// `combination & (1 << idx)` is non-zero.
  method Select(mask: BitBoard, combination: nat) returns (selected: BitBoard)
    requires |mask| < 16
    ensures selected == Combination(mask, combination)
  {
    selected := EMPTY;
    var remaining := mask;
    var idx := 0;
    ghost var rest := combination;
    ghost var target := Combination(mask, combination);
    while true
      invariant idx + |remaining| == |mask|
      invariant rest == combination / Pow2(idx)
      invariant selected + Combination(remaining, rest) == target
      decreases |remaining|
    {
      ghost var before := remaining;
      var square;
      square, remaining := BitBoards.Next(remaining);
      if square.None? {
        break;
      }
      // `1 << idx` stays within the u16, so the test reads bit idx
      assert idx < 16;
      BitStep(combination, idx);
      SelectStep(before, rest, selected, target);
      if BitSet(combination, idx) {
        selected := selected + FromSquare(square.value);
      }
      rest := rest / 2;
      idx := idx + 1;
    }
  }

  /// `Occupancies`: iterates through the 2^popcnt(mask) subsets of a mask.
  /// `2u16.pow(popcnt)` wraps to 0 in a 16-bit counter once the mask has 16
  /// or more squares, and the iterator is then empty.
  class Occupancies {
    var mask: BitBoard
    var nCombinations: nat
    var currentCombination: nat

    ghost predicate Valid()
      reads this
    {
      nCombinations == Pow2(|mask|) % U16_LIMIT && currentCombination <= nCombinations
    }

    /// `Occupancies::new`.
    constructor (mask: BitBoard)
      ensures Valid()
      ensures this.mask == mask && currentCombination == 0
    {
      this.mask := mask;
      nCombinations := Pow2(|mask|) % U16_LIMIT;
      currentCombination := 0;
    }

    /// `Iterator::next`: None once every combination has been produced;
    /// otherwise the current combination, built by walking the mask in
    /// ascending order and keeping the squares whose position bit is set,
    /// after which the counter advances.
    method Next() returns (r: Option<BitBoard>)
      requires Valid()
      modifies this
      ensures Valid() && mask == old(mask) && nCombinations == old(nCombinations)
      ensures old(currentCombination) == nCombinations ==>
        r.None? && currentCombination == old(currentCombination)
      ensures old(currentCombination) < nCombinations ==>
        r == Some(Combination(mask, old(currentCombination)))
        && currentCombination == old(currentCombination) + 1
    {
      if currentCombination == nCombinations {
        return None;
      }
      CounterBoundsMask(mask, nCombinations, currentCombination);
      var maskCombination := Select(mask, currentCombination);
      currentCombination := currentCombination + 1;
      return Some(maskCombination);
    }
  }

  /// `Occupancies::new(mask).collect()`: drives the iterator to the end.
  /// A mask of at most 15 squares yields each of its 2^popcnt subsets, in
  /// index order.
  method AllOccupancies(mask: BitBoard) returns (occupancies: seq<BitBoard>)
    ensures |occupancies| == Pow2(|mask|) % U16_LIMIT
    ensures forall k :: 0 <= k < |occupancies| ==> occupancies[k] == Combination(mask, k)
  {
    var iter := new Occupancies(mask);
    occupancies := [];
    while true
      invariant iter.Valid() && iter.mask == mask
      invariant |occupancies| == iter.currentCombination
      invariant forall k :: 0 <= k < |occupancies| ==> occupancies[k] == Combination(mask, k)
      decreases iter.nCombinations - iter.currentCombination
    {
      var occupancy := iter.Next();
      if occupancy.None? {
        break;
      }
      occupancies := occupancies + [occupancy.value];
    }
  }

  /// Every subset of a mask of at most 15 squares is enumerated, at its
  /// own index.
  lemma AllSubsetsEnumerated(mask: BitBoard, occupancies: seq<BitBoard>, sub: BitBoard)
    requires |mask| <= 15
    requires |occupancies| == Pow2(|mask|) % U16_LIMIT
    requires forall k :: 0 <= k < |occupancies| ==> occupancies[k] == Combination(mask, k)
    requires sub <= mask
    ensures CombinationIndex(mask, sub) < |occupancies|
    ensures occupancies[CombinationIndex(mask, sub)] == sub
  {
    CombinationIndexSpec(mask, sub);
    Pow2Fits(|mask|);
    DivUnique(Pow2(|mask|), U16_LIMIT, 0, Pow2(|mask|));
  }
}
