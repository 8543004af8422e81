// The magic search and the magic attack tables (src/table_gen/sliders.rs):
// for each square, a multiplier that hashes every blocker configuration of
// the mask to a slot without mixing different attack sets, the offsets that
// pack all squares into one table, and the table itself.
module TableGenMagics {
  import opened Wrappers
  import opened Squares
  import opened BitBoards
  import opened Magics
  import opened OccupancyEnum
  import opened TableGenSliders

  /// `BISHOP_BITS`: the key width of each square's bishop magic, rank by
  /// rank from a1.
  const BISHOP_BITS: seq<nat> :=
    [6, 5, 5, 5, 5, 5, 5, 6] +
    [5, 5, 5, 5, 5, 5, 5, 5] +
    [5, 5, 7, 7, 7, 7, 5, 5] +
    [5, 5, 7, 9, 9, 7, 5, 5] +
    [5, 5, 7, 9, 9, 7, 5, 5] +
    [5, 5, 7, 7, 7, 7, 5, 5] +
    [5, 5, 5, 5, 5, 5, 5, 5] +
    [6, 5, 5, 5, 5, 5, 5, 6]

  /// `ROOK_BITS`: the key width of each square's rook magic.
  const ROOK_BITS: seq<nat> :=
    [12, 11, 11, 11, 11, 11, 11, 12] +
    [11, 10, 10, 10, 10, 10, 10, 11] +
    [11, 10, 10, 10, 10, 10, 10, 11] +
    [11, 10, 10, 10, 10, 10, 10, 11] +
    [11, 10, 10, 10, 10, 10, 10, 11] +
    [11, 10, 10, 10, 10, 10, 10, 11] +
    [11, 10, 10, 10, 10, 10, 10, 11] +
    [12, 11, 11, 11, 11, 11, 11, 12]

  /// The key width for a slider on a square.
  function Bits(kind: Slider, s: Square): (bits: nat)
    ensures 0 < bits <= 12
    ensures kind == Bishop ==> bits <= 9
  {
    match kind
    case Bishop => BishopBitsRange(s); BISHOP_BITS[s]
    case Rook => RookBitsRange(s); ROOK_BITS[s]
  }

  /// Bishop keys take 5 to 9 bits.
  lemma BishopBitsRange(s: Square)
    ensures |BISHOP_BITS| == 64 && 5 <= BISHOP_BITS[s] <= 9
  {
  }

  /// Rook keys take 10 to 12 bits.
  lemma RookBitsRange(s: Square)
    ensures |ROOK_BITS| == 64 && 10 <= ROOK_BITS[s] <= 12
  {
  }

  /// The size of the scratch table the search fills: 512 slots for the
  /// bishop, 4096 for the rook.
  function ScratchSize(kind: Slider): nat
  {
    match kind
    case Bishop => 512
    case Rook => 4096
  }

  /// `shift = 64 - BITS[sq]` leaves keys that fit the scratch table.
  lemma KeysFitScratch(kind: Slider, s: Square)
    ensures Pow2(64 - (64 - Bits(kind, s))) <= ScratchSize(kind)
  {
    Pow2Values();
    if kind == Bishop {
      Pow2Monotone(Bits(kind, s), 9);
    } else {
      Pow2Monotone(Bits(kind, s), 12);
    }
  }

  /// The (occupancy, attacks) pairs the search checks, in enumeration order.
  type Pairs = seq<(BitBoard, BitBoard)>

  /// The key of the i-th pair.
  function PairKey(pairs: Pairs, i: nat, mask: BitBoard, magic: nat, shift: nat): nat
    requires i < |pairs| && magic < U64_LIMIT && shift < 64
  {
    CalculateKey(pairs[i].0, mask, magic, shift)
  }

  /// No collision among the first n pairs: whenever a later pair lands on
  /// the key of an earlier pair with non-empty attacks, the attacks agree.
  /// A slot holding an empty attack set counts as free.
  predicate NoCollisionUpTo(pairs: Pairs, mask: BitBoard, magic: nat, shift: nat, n: nat)
    requires n <= |pairs| && magic < U64_LIMIT && shift < 64
  {
    forall i, j :: 0 <= i < j < n && pairs[i].1 != EMPTY
      && PairKey(pairs, i, mask, magic, shift) == PairKey(pairs, j, mask, magic, shift)
      ==> pairs[i].1 == pairs[j].1
  }

  /// What the search accepts: no collision among all the pairs.
  predicate NoCollision(pairs: Pairs, mask: BitBoard, magic: nat, shift: nat)
    requires magic < U64_LIMIT && shift < 64
  {
    NoCollisionUpTo(pairs, mask, magic, shift, |pairs|)
  }

  /// The content of a scratch slot after the first n pairs were stored:
  /// the attacks of the first pair with non-empty attacks on that key.
  function Slot(pairs: Pairs, mask: BitBoard, magic: nat, shift: nat, n: nat, slot: nat): BitBoard
    requires n <= |pairs| && magic < U64_LIMIT && shift < 64
  {
    if n == 0 then EMPTY
    else
      var prev := Slot(pairs, mask, magic, shift, n - 1, slot);
      if prev == EMPTY && PairKey(pairs, n - 1, mask, magic, shift) == slot then pairs[n - 1].1 else prev
  }

  /// A free slot: no earlier pair with non-empty attacks has that key.
  lemma {:induction false} SlotFree(pairs: Pairs, mask: BitBoard, magic: nat, shift: nat, n: nat, slot: nat, i: nat)
    requires n <= |pairs| && magic < U64_LIMIT && shift < 64
    requires Slot(pairs, mask, magic, shift, n, slot) == EMPTY
    requires i < n && PairKey(pairs, i, mask, magic, shift) == slot
    ensures pairs[i].1 == EMPTY
  {
    if i < n - 1 {
      SlotFree(pairs, mask, magic, shift, n - 1, slot, i);
    }
  }

  /// A filled slot holds the attacks of an earlier pair with that key.
  lemma {:induction false} SlotOwner(pairs: Pairs, mask: BitBoard, magic: nat, shift: nat, n: nat, slot: nat)
    returns (i: nat)
    requires n <= |pairs| && magic < U64_LIMIT && shift < 64
    requires Slot(pairs, mask, magic, shift, n, slot) != EMPTY
    ensures i < n && PairKey(pairs, i, mask, magic, shift) == slot
    ensures pairs[i].1 == Slot(pairs, mask, magic, shift, n, slot)
  {
    var prev := Slot(pairs, mask, magic, shift, n - 1, slot);
    if prev == EMPTY {
      i := n - 1;
    } else {
      i := SlotOwner(pairs, mask, magic, shift, n - 1, slot);
    }
  }

  /// Every earlier pair with non-empty attacks on the key of pair n has
  /// the attacks of pair n.
  predicate AgreesWithEarlier(pairs: Pairs, mask: BitBoard, magic: nat, shift: nat, n: nat)
    requires n < |pairs| && magic < U64_LIMIT && shift < 64
  {
    forall i :: 0 <= i < n && pairs[i].1 != EMPTY
      && PairKey(pairs, i, mask, magic, shift) == PairKey(pairs, n, mask, magic, shift)
      ==> pairs[i].1 == pairs[n].1
  }

  /// The prefix grows by pair n without a collision when every earlier
  /// pair with non-empty attacks on its key has the same attacks.
  lemma NoCollisionExtends(pairs: Pairs, mask: BitBoard, magic: nat, shift: nat, n: nat)
    requires n < |pairs| && magic < U64_LIMIT && shift < 64
    requires NoCollisionUpTo(pairs, mask, magic, shift, n)
    requires AgreesWithEarlier(pairs, mask, magic, shift, n)
    ensures NoCollisionUpTo(pairs, mask, magic, shift, n + 1)
  {
    forall i, j | 0 <= i < j < n + 1 && pairs[i].1 != EMPTY
      && PairKey(pairs, i, mask, magic, shift) == PairKey(pairs, j, mask, magic, shift)
      ensures pairs[i].1 == pairs[j].1
    {
      if j < n {
        assert NoCollisionUpTo(pairs, mask, magic, shift, n);
      }
    }
  }

  /// Storing pair n into its slot keeps the prefix collision-free exactly
  /// when the slot is free or already holds the same attacks.
  lemma StoreStep(pairs: Pairs, mask: BitBoard, magic: nat, shift: nat, n: nat)
    requires n < |pairs| && magic < U64_LIMIT && shift < 64
    requires NoCollisionUpTo(pairs, mask, magic, shift, n)
    ensures var slot := Slot(pairs, mask, magic, shift, n, PairKey(pairs, n, mask, magic, shift));
      NoCollisionUpTo(pairs, mask, magic, shift, n + 1) <==> slot == EMPTY || slot == pairs[n].1
  {
    var key := PairKey(pairs, n, mask, magic, shift);
    var slot := Slot(pairs, mask, magic, shift, n, key);
    if slot == EMPTY {
      forall i | 0 <= i < n && PairKey(pairs, i, mask, magic, shift) == key
        ensures pairs[i].1 == EMPTY
      {
        SlotFree(pairs, mask, magic, shift, n, key, i);
      }
      NoCollisionExtends(pairs, mask, magic, shift, n);
    } else {
      var owner := SlotOwner(pairs, mask, magic, shift, n, key);
      if slot == pairs[n].1 {
        forall i | 0 <= i < n && pairs[i].1 != EMPTY && PairKey(pairs, i, mask, magic, shift) == key
          ensures pairs[i].1 == pairs[n].1
        {
          if i < owner {
            assert pairs[i].1 == pairs[owner].1;
          } else if owner < i {
            assert pairs[owner].1 == pairs[i].1;
          }
        }
        NoCollisionExtends(pairs, mask, magic, shift, n);
      } else {
        assert owner < n && pairs[owner].1 != EMPTY && pairs[owner].1 != pairs[n].1;
      }
    }
  }

  /// The keys of the pairs under a candidate, in order.
  function Keys(pairs: Pairs, mask: BitBoard, magic: nat, shift: nat): (keys: seq<nat>)
    requires magic < U64_LIMIT && shift < 64
    ensures |keys| == |pairs|
    ensures forall i :: 0 <= i < |pairs| ==> keys[i] == PairKey(pairs, i, mask, magic, shift)
  {
    seq(|pairs|, i requires 0 <= i < |pairs| => PairKey(pairs, i, mask, magic, shift))
  }

  /// The largest of the first n keys (0 when n is 0).
  function MaxOf(keys: seq<nat>, n: nat): nat
    requires n <= |keys|
  {
    if n == 0 then 0
    else
      var m := MaxOf(keys, n - 1);
      if m < keys[n - 1] then keys[n - 1] else m
  }

  /// MaxOf bounds every key it ranges over.
  lemma {:induction false} MaxOfBounds(keys: seq<nat>, n: nat, i: nat)
    requires i < n <= |keys|
    ensures keys[i] <= MaxOf(keys, n)
  {
    if i < n - 1 {
      MaxOfBounds(keys, n - 1, i);
    }
  }

  /// The largest key among the first n pairs (0 when n is 0).
  function MaxKey(pairs: Pairs, mask: BitBoard, magic: nat, shift: nat, n: nat): (m: nat)
    requires n <= |pairs| && magic < U64_LIMIT && shift < 64
  {
    MaxOf(Keys(pairs, mask, magic, shift), n)
  }

  /// MaxKey bounds every key it ranges over.
  lemma MaxKeyBounds(pairs: Pairs, mask: BitBoard, magic: nat, shift: nat, n: nat, i: nat)
    requires n <= |pairs| && magic < U64_LIMIT && shift < 64 && i < n
    ensures PairKey(pairs, i, mask, magic, shift) <= MaxKey(pairs, mask, magic, shift, n)
  {
    MaxOfBounds(Keys(pairs, mask, magic, shift), n, i);
  }

  /// A collision among the first n pairs is a collision among all.
  lemma CollisionStays(pairs: Pairs, mask: BitBoard, magic: nat, shift: nat, n: nat)
    requires n <= |pairs| && magic < U64_LIMIT && shift < 64
    requires !NoCollisionUpTo(pairs, mask, magic, shift, n)
    ensures !NoCollision(pairs, mask, magic, shift)
  {
    var i, j :| 0 <= i < j < n && pairs[i].1 != EMPTY
      && PairKey(pairs, i, mask, magic, shift) == PairKey(pairs, j, mask, magic, shift)
      && pairs[i].1 != pairs[j].1;
  }

  /// The body of the fill loop for pair n: its key raises the largest
  /// key seen, then a free slot takes its attacks and a slot holding other
  /// attacks is a collision.
  method StorePair(pairs: Pairs, mask: BitBoard, candidate: nat, shift: nat, table: array<BitBoard>,
    n: nat, maxKey: nat) returns (stored: bool, newMax: nat)
    requires n < |pairs| && candidate < U64_LIMIT && shift < 64 && Pow2(64 - shift) <= table.Length
    requires maxKey == MaxKey(pairs, mask, candidate, shift, n)
    requires NoCollisionUpTo(pairs, mask, candidate, shift, n)
    requires forall slot :: 0 <= slot < table.Length ==> table[slot] == Slot(pairs, mask, candidate, shift, n, slot)
    modifies table
    ensures newMax == MaxKey(pairs, mask, candidate, shift, n + 1)
    ensures stored <==> NoCollisionUpTo(pairs, mask, candidate, shift, n + 1)
    ensures stored ==> forall slot :: 0 <= slot < table.Length ==>
      table[slot] == Slot(pairs, mask, candidate, shift, n + 1, slot)
  {
    var (occupancy, attacks) := pairs[n];
    var key := CalculateKey(occupancy, mask, candidate, shift);
    assert key == PairKey(pairs, n, mask, candidate, shift);
    StoreStep(pairs, mask, candidate, shift, n);
    newMax := if maxKey < key then key else maxKey;
    stored := true;
    if IsEmpty(table[key]) {
      table[key] := attacks;
    } else if table[key] != attacks {
      stored := false;
    }
  }

  /// One candidate of the search loop: fills the scratch table slot by slot
  /// and gives up at the first key whose slot holds different, non-empty
  /// attacks. It accepts exactly the candidates without a collision, and
  /// then reports the largest key.
  method TryMagic(pairs: Pairs, mask: BitBoard, candidate: nat, shift: nat, table: array<BitBoard>)
    returns (valid: bool, maxKey: nat)
    requires candidate < U64_LIMIT && shift < 64 && Pow2(64 - shift) <= table.Length
    modifies table
    ensures valid <==> NoCollision(pairs, mask, candidate, shift)
    ensures valid ==> maxKey == MaxKey(pairs, mask, candidate, shift, |pairs|)
  {
    // attack_table.fill(BitBoard::EMPTY)
    forall slot | 0 <= slot < table.Length {
      table[slot] := EMPTY;
    }
    valid, maxKey := FillTable(pairs, mask, candidate, shift, table);
  }

  /// The fill loop of `TryMagic`, on the cleared table.
  method FillTable(pairs: Pairs, mask: BitBoard, candidate: nat, shift: nat, table: array<BitBoard>)
    returns (valid: bool, maxKey: nat)
    requires candidate < U64_LIMIT && shift < 64 && Pow2(64 - shift) <= table.Length
    requires forall slot :: 0 <= slot < table.Length ==> table[slot] == EMPTY
    modifies table
    ensures valid <==> NoCollision(pairs, mask, candidate, shift)
    ensures valid ==> maxKey == MaxKey(pairs, mask, candidate, shift, |pairs|)
  {
    maxKey := 0;
    var j := 0;
    while j < |pairs|
      invariant 0 <= j <= |pairs|
      invariant NoCollisionUpTo(pairs, mask, candidate, shift, j)
      invariant maxKey == MaxKey(pairs, mask, candidate, shift, j)
      invariant forall slot :: 0 <= slot < table.Length ==>
        table[slot] == Slot(pairs, mask, candidate, shift, j, slot)
    {
      var stored;
      stored, maxKey := StorePair(pairs, mask, candidate, shift, table, j, maxKey);
      if !stored {
        CollisionStays(pairs, mask, candidate, shift, j + 1);
        return false, maxKey;
      }
      j := j + 1;
    }
    valid := true;
  }

  /// The retry loop of the search: tries the candidates from `start` on (the
  /// random stream `get_magic_candidate` draws from) until one is accepted.
  /// Every candidate it skips has a collision. When the stream runs out
  /// first, the result is None.
  method FindMagic(pairs: Pairs, mask: BitBoard, shift: nat, table: array<BitBoard>,
                   candidates: seq<nat>, start: nat)
    returns (found: Option<nat>, maxKey: nat, next: nat)
    requires shift < 64 && Pow2(64 - shift) <= table.Length
    requires start <= |candidates| && forall i :: 0 <= i < |candidates| ==> candidates[i] < U64_LIMIT
    modifies table
    ensures start <= next <= |candidates|
    ensures found.None? ==> next == |candidates|
    ensures found.Some? ==>
      next > start && found.value == candidates[next - 1]
      && NoCollision(pairs, mask, found.value, shift)
      && maxKey == MaxKey(pairs, mask, found.value, shift, |pairs|)
    ensures forall i :: start <= i < next && (found.None? || i < next - 1) ==>
      !NoCollision(pairs, mask, candidates[i], shift)
  {
    next := start;
    while next < |candidates|
      invariant start <= next <= |candidates|
      invariant forall i :: start <= i < next ==> !NoCollision(pairs, mask, candidates[i], shift)
    {
      var candidate := candidates[next];
      var valid;
      valid, maxKey := TryMagic(pairs, mask, candidate, shift, table);
      next := next + 1;
      if valid {
        return Some(candidate), maxKey, next;
      }
    }
    return None, 0, next;
  }

  /// The two functions `generate_bishop_*` and `generate_rook_*` differ in:
  /// the blocker mask (`get_bishop_mask` / `get_rook_mask`) and the
  /// ray-cast attacks (`get_bishop_attacks_slow` / `get_rook_attacks_slow`).
  /// The generation below is written once over these two functions.
  datatype SliderFns = SliderFns(kind: Slider, mask: Square -> BitBoard, attacks: (Square, BitBoard) -> BitBoard)

  /// The functions of one slider.
  function Fns(kind: Slider): (f: SliderFns)
    ensures f.kind == kind
  {
    SliderFns(kind, s => Mask(kind, s), (s, occ) => AttacksSlow(kind, s, occ))
  }

  /// What the generation relies on: masks of at most 12 squares, attacks
  /// that are never empty, and attacks that depend only on the blockers
  /// inside the mask.
  ghost predicate Sound(f: SliderFns)
  {
    (forall s: Square :: |f.mask(s)| <= 12)
    && (forall s: Square, occ :: f.attacks(s, occ) != EMPTY)
    && (forall s: Square, o1, o2 :: o1 * f.mask(s) == o2 * f.mask(s) ==> f.attacks(s, o1) == f.attacks(s, o2))
  }

  /// The bishop and rook functions have these properties.
  lemma FnsSound(kind: Slider)
    ensures Sound(Fns(kind))
  {
    var f := Fns(kind);
    forall s: Square
      ensures |f.mask(s)| <= 12
    {
      MaskSize(kind, s);
    }
    forall s: Square, occ
      ensures f.attacks(s, occ) != EMPTY
    {
      AttacksNonEmpty(kind, s, occ);
    }
    forall s: Square, o1, o2 | o1 * f.mask(s) == o2 * f.mask(s)
      ensures f.attacks(s, o1) == f.attacks(s, o2)
    {
      MaskRelevant(kind, s, o1);
      MaskRelevant(kind, s, o2);
    }
  }

  /// The enumerated (occupancy, attacks) pairs of a square.
  function SquarePairs(f: SliderFns, s: Square): (pairs: Pairs)
  {
    var mask := f.mask(s);
    seq(Pow2(|mask|) % U16_LIMIT, k requires 0 <= k => (Combination(mask, k), f.attacks(s, Combination(mask, k))))
  }

  /// The `occupancy_attacks` list of the search: every occupancy of the
  /// mask, in enumeration order, with its ray-cast attacks.
  method OccupancyAttacks(f: SliderFns, s: Square) returns (pairs: Pairs)
    ensures pairs == SquarePairs(f, s)
  {
    var mask := f.mask(s);
    var occupancies := AllOccupancies(mask);
    pairs := seq(|occupancies|, k requires 0 <= k < |occupancies| => (occupancies[k], f.attacks(s, occupancies[k])));
  }

  /// A magic found for a square: the square's mask and shift, and any two
  /// blocker sets of the mask that share a key have the same attacks.
  ghost predicate MagicFor(f: SliderFns, s: Square, m: Magic)
  {
    m.mask == f.mask(s) && m.shift == 64 - Bits(f.kind, s) && WellFormed(m)
    && (forall o1, o2 :: o1 <= m.mask && o2 <= m.mask
          && CalculateKey(o1, m.mask, m.magic, m.shift) == CalculateKey(o2, m.mask, m.magic, m.shift)
          ==> f.attacks(s, o1) == f.attacks(s, o2))
  }

  /// Without collisions, two pairs with non-empty attacks on the same key
  /// have the same attacks.
  lemma PairsOnKeyAgree(pairs: Pairs, mask: BitBoard, magic: nat, shift: nat, k1: nat, k2: nat)
    requires magic < U64_LIMIT && shift < 64 && k1 < |pairs| && k2 < |pairs|
    requires NoCollision(pairs, mask, magic, shift)
    requires pairs[k1].1 != EMPTY && pairs[k2].1 != EMPTY
    requires PairKey(pairs, k1, mask, magic, shift) == PairKey(pairs, k2, mask, magic, shift)
    ensures pairs[k1].1 == pairs[k2].1
  {
    if k1 < k2 {
      assert NoCollisionUpTo(pairs, mask, magic, shift, |pairs|);
    } else if k2 < k1 {
      assert NoCollisionUpTo(pairs, mask, magic, shift, |pairs|);
    }
  }

  /// Without collisions, and with non-empty attacks throughout, two subsets
  /// of the mask that share a key index pairs with the same attacks.
  lemma SharedKeySameAttacks(pairs: Pairs, mask: BitBoard, magic: nat, shift: nat, o1: BitBoard, o2: BitBoard)
    requires magic < U64_LIMIT && shift < 64 && |pairs| == Pow2(|mask|)
    requires forall k :: 0 <= k < |pairs| ==> pairs[k].0 == Combination(mask, k) && pairs[k].1 != EMPTY
    requires NoCollision(pairs, mask, magic, shift)
    requires o1 <= mask && o2 <= mask
    requires CalculateKey(o1, mask, magic, shift) == CalculateKey(o2, mask, magic, shift)
    ensures pairs[CombinationIndex(mask, o1)].1 == pairs[CombinationIndex(mask, o2)].1
  {
    var k1 := CombinationIndex(mask, o1);
    var k2 := CombinationIndex(mask, o2);
    CombinationIndexSpec(mask, o1);
    CombinationIndexSpec(mask, o2);
    assert pairs[k1].0 == o1 && pairs[k2].0 == o2;
    PairsOnKeyAgree(pairs, mask, magic, shift, k1, k2);
  }

  /// The pairs of a square: one per subset of its mask (at most 12
  /// squares, so the u16 count does not wrap), each with the never empty
  /// attacks for that subset.
  lemma SquarePairsSpec(f: SliderFns, s: Square)
    requires Sound(f)
    ensures |SquarePairs(f, s)| == Pow2(|f.mask(s)|)
    ensures forall k :: 0 <= k < |SquarePairs(f, s)| ==>
      SquarePairs(f, s)[k].0 == Combination(f.mask(s), k)
      && SquarePairs(f, s)[k].1 == f.attacks(s, Combination(f.mask(s), k))
      && SquarePairs(f, s)[k].1 != EMPTY
  {
    var mask := f.mask(s);
    Pow2Fits(|mask|);
    DivUnique(Pow2(|mask|), U16_LIMIT, 0, Pow2(|mask|));
  }

  /// An accepted candidate keeps every pair of blocker sets of the mask
  /// apart: the enumeration covers every subset, and slider attacks are
  /// never empty, so the empty-slot exception never applies.
  lemma AcceptedIsMagic(f: SliderFns, s: Square, m: Magic)
    requires Sound(f)
    requires m.mask == f.mask(s) && m.shift == 64 - Bits(f.kind, s) && WellFormed(m)
    requires NoCollision(SquarePairs(f, s), m.mask, m.magic, m.shift)
    ensures MagicFor(f, s, m)
  {
    var pairs := SquarePairs(f, s);
    SquarePairsSpec(f, s);
    forall o1, o2 | o1 <= m.mask && o2 <= m.mask
      && CalculateKey(o1, m.mask, m.magic, m.shift) == CalculateKey(o2, m.mask, m.magic, m.shift)
      ensures f.attacks(s, o1) == f.attacks(s, o2)
    {
      SharedKeySameAttacks(pairs, m.mask, m.magic, m.shift, o1, o2);
      CombinationIndexSpec(m.mask, o1);
      CombinationIndexSpec(m.mask, o2);
    }
  }

  /// Where a square's slots end: the next square's offset, or the table
  /// size after the last square.
  function EndOffset(magics: seq<Magic>, total: nat, s: Square): nat
    requires |magics| == 64
  {
    if s < 63 then magics[s + 1].offset else total
  }

  /// A complete set of magics for one slider: one per square, the first at
  /// offset 0, and every key of a square within that square's own slots.
  ghost predicate ValidMagics(f: SliderFns, magics: seq<Magic>, total: nat)
  {
    |magics| == 64 && magics[0].offset == 0
    && (forall s: Square :: MagicFor(f, s, magics[s]))
    && (forall s: Square, occ :: Key(magics[s], occ) < EndOffset(magics, total, s))
  }

  /// Slots of earlier squares all come before a later square's offset.
  lemma {:induction false} EndBeforeStart(f: SliderFns, magics: seq<Magic>, total: nat, a: Square, b: Square)
    requires ValidMagics(f, magics, total) && a < b
    ensures EndOffset(magics, total, a) <= magics[b].offset
    decreases b - a
  {
    if a + 1 < b {
      EndBeforeStart(f, magics, total, a + 1, b);
      assert Key(magics[a + 1], EMPTY) < EndOffset(magics, total, a + 1);
    }
  }

  /// Every key lies below the total table size.
  lemma KeyBelowTotal(f: SliderFns, magics: seq<Magic>, total: nat, s: Square, occ: BitBoard)
    requires ValidMagics(f, magics, total)
    ensures Key(magics[s], occ) < total
  {
    if s < 63 {
      EndBeforeStart(f, magics, total, s, 63);
      assert Key(magics[63], EMPTY) < total;
    }
  }

  /// The slots a square's magic takes: its largest key plus one.
  ghost function Span(f: SliderFns, s: Square, m: Magic): nat
    requires WellFormed(m)
  {
    var pairs := SquarePairs(f, s);
    MaxKey(pairs, m.mask, m.magic, m.shift, |pairs|) + 1
  }

  /// Every key of a square's magic is below its span.
  lemma KeyWithinSpan(f: SliderFns, s: Square, m: Magic, occ: BitBoard)
    requires Sound(f) && m.mask == f.mask(s) && WellFormed(m)
    ensures CalculateKey(occ, m.mask, m.magic, m.shift) < Span(f, s, m)
  {
    var pairs := SquarePairs(f, s);
    var sub := occ * m.mask;
    SquarePairsSpec(f, s);
    var k := CombinationIndex(m.mask, sub);
    CombinationIndexSpec(m.mask, sub);
    assert sub * m.mask == occ * m.mask;
    KeyIgnoresUnmasked(occ, sub, m.mask, m.magic, m.shift);
    assert PairKey(pairs, k, m.mask, m.magic, m.shift) == CalculateKey(occ, m.mask, m.magic, m.shift);
    MaxKeyBounds(pairs, m.mask, m.magic, m.shift, |pairs|, k);
  }

  /// The body of the per-square loop of `generate_bishop_magics` /
  /// `generate_rook_magics`: the square's mask, shift and pairs, then the
  /// first candidate of the stream without a collision, placed at the
  /// running offset. None when the stream runs out.
  method SquareMagic(f: SliderFns, s: Square, candidates: seq<nat>, start: nat, offset: nat)
    returns (found: Option<Magic>, maxKey: nat, next: nat)
    requires Sound(f)
    requires start <= |candidates| && forall i :: 0 <= i < |candidates| ==> candidates[i] < U64_LIMIT
    ensures start <= next <= |candidates|
    ensures found.Some? ==>
      MagicFor(f, s, found.value) && found.value.offset == offset
      && found.value.magic in candidates && Span(f, s, found.value) == maxKey + 1
  {
    var mask := f.mask(s);
    var shift := 64 - Bits(f.kind, s);
    var pairs := OccupancyAttacks(f, s);
    var table := new BitBoard[ScratchSize(f.kind)];
    KeysFitScratch(f.kind, s);
    var candidate;
    candidate, maxKey, next := FindMagic(pairs, mask, shift, table, candidates, start);
    if candidate.None? {
      return None, maxKey, next;
    }
    var m := Magic(mask, candidate.value, shift, offset);
    AcceptedIsMagic(f, s, m);
    found := Some(m);
  }

  /// The sum of the first n spans.
  function SumTo(spans: seq<nat>, n: nat): nat
    requires n <= |spans|
  {
    if n == 0 then 0 else SumTo(spans, n - 1) + spans[n - 1]
  }

  /// SumTo reads only the first n spans.
  lemma {:induction false} SumToPrefix(a: seq<nat>, b: seq<nat>, n: nat)
    requires n <= |a| && n <= |b| && a[..n] == b[..n]
    ensures SumTo(a, n) == SumTo(b, n)
  {
    if n > 0 {
      assert a[n - 1] == a[..n][n - 1] == b[..n][n - 1] == b[n - 1];
      assert a[..n - 1] == a[..n][..n - 1];
      assert b[..n - 1] == b[..n][..n - 1];
      SumToPrefix(a, b, n - 1);
    }
  }

  /// Each magic starts where the ones before it end, given the slots each
  /// takes, and the total is where they all end.
  predicate Chained(magics: seq<Magic>, spans: seq<nat>, total: nat)
  {
    |magics| == |spans|
    && (forall t {:trigger magics[t]} :: 0 <= t < |magics| ==> magics[t].offset == SumTo(spans, t))
    && total == SumTo(spans, |spans|)
  }

  /// Appending a magic at the running offset and moving the offset past
  /// its slots keeps the magics chained.
  lemma ChainStep(magics: seq<Magic>, spans: seq<nat>, total: nat, m: Magic, span: nat)
    requires Chained(magics, spans, total) && m.offset == total
    ensures Chained(magics + [m], spans + [span], total + span)
  {
    var next := spans + [span];
    forall t | 0 <= t <= |spans|
      ensures SumTo(next, t) == SumTo(spans, t)
    {
      assert next[..t] == spans[..t];
      SumToPrefix(spans, next, t);
    }
    assert SumTo(next, |next|) == SumTo(spans, |spans|) + span;
  }

  /// Each magic so far is a magic for its square, drawn from the stream,
  /// and takes its span.
  ghost predicate AllFound(f: SliderFns, candidates: seq<nat>, magics: seq<Magic>, spans: seq<nat>)
  {
    |magics| == |spans| <= 64
    && forall t {:trigger magics[t]} :: 0 <= t < |magics| ==>
      MagicFor(f, t, magics[t]) && magics[t].magic in candidates && spans[t] == Span(f, t, magics[t])
  }

  /// Appending the next square's magic and span keeps AllFound.
  lemma FoundStep(f: SliderFns, candidates: seq<nat>, magics: seq<Magic>, spans: seq<nat>, m: Magic, span: nat)
    requires AllFound(f, candidates, magics, spans) && |magics| < 64
    requires MagicFor(f, |magics|, m) && m.magic in candidates && span == Span(f, |magics|, m)
    ensures AllFound(f, candidates, magics + [m], spans + [span])
  {
    forall t | 0 <= t < |magics|
      ensures (magics + [m])[t] == magics[t] && (spans + [span])[t] == spans[t]
    {
    }
  }

  /// The outcome of a successful search: a complete set of magics, drawn
  /// from the stream, packed without gaps (each square takes exactly its
  /// largest key plus one slots).
  ghost predicate Generated(f: SliderFns, candidates: seq<nat>, magics: seq<Magic>, total: nat)
  {
    ValidMagics(f, magics, total)
    && forall s: Square ::
      EndOffset(magics, total, s) == magics[s].offset + Span(f, s, magics[s])
      && magics[s].magic in candidates
  }

  /// The state of the search after some squares: the magics found so far
  /// and the running offset.
  ghost predicate Progress(f: SliderFns, candidates: seq<nat>, magics: seq<Magic>, spans: seq<nat>, total: nat)
  {
    AllFound(f, candidates, magics, spans) && Chained(magics, spans, total)
  }

  /// One more square found keeps Progress.
  lemma ProgressStep(f: SliderFns, candidates: seq<nat>, magics: seq<Magic>, spans: seq<nat>, total: nat, m: Magic, span: nat)
    requires Progress(f, candidates, magics, spans, total) && |magics| < 64
    requires MagicFor(f, |magics|, m) && m.magic in candidates && span == Span(f, |magics|, m)
    requires m.offset == total
    ensures Progress(f, candidates, magics + [m], spans + [span], total + span)
  {
    ChainStep(magics, spans, total, m, span);
    FoundStep(f, candidates, magics, spans, m, span);
  }

  /// Sixty-four chained magics, each a magic for its square and taking
  /// its span, form a complete set: every key stays within its square's
  /// slots.
  lemma ChainedIsValid(f: SliderFns, candidates: seq<nat>, magics: seq<Magic>, spans: seq<nat>, total: nat)
    requires Sound(f) && |magics| == 64 && Progress(f, candidates, magics, spans, total)
    ensures Generated(f, candidates, magics, total)
  {
    assert magics[0].offset == SumTo(spans, 0) == 0;
    forall s: Square
      ensures EndOffset(magics, total, s) == magics[s].offset + Span(f, s, magics[s])
    {
      assert SumTo(spans, s + 1) == SumTo(spans, s) + spans[s];
    }
    forall s: Square, occ
      ensures Key(magics[s], occ) < EndOffset(magics, total, s)
    {
      KeyWithinSpan(f, s, magics[s], occ);
    }
  }

  /// `generate_bishop_magics` / `generate_rook_magics` over the slider's
  /// functions: square by square, the first candidate of the stream without
  /// a collision becomes the square's magic, placed at the running offset,
  /// which then grows by the largest key plus one.
  method GenerateMagicsWith(f: SliderFns, candidates: seq<nat>) returns (found: bool, magics: seq<Magic>, total: nat)
    requires Sound(f)
    requires forall i :: 0 <= i < |candidates| ==> candidates[i] < U64_LIMIT
    ensures found ==> Generated(f, candidates, magics, total)
  {
    magics := [];
    total := 0;
    ghost var spans: seq<nat> := [];
    var next := 0;
    for s := 0 to 64
      invariant |magics| == s && next <= |candidates|
      invariant Progress(f, candidates, magics, spans, total)
    {
      var m, maxKey;
      m, maxKey, next := SquareMagic(f, s, candidates, next, total);
      if m.None? {
        return false, magics, total;
      }
      ProgressStep(f, candidates, magics, spans, total, m.value, maxKey + 1);
      magics := magics + [m.value];
      spans := spans + [maxKey + 1];
      total := total + maxKey + 1;
    }
    ChainedIsValid(f, candidates, magics, spans, total);
    found := true;
  }

  /// Every blocker set of a square's mask finds that square's attacks at
  /// its key.
  ghost predicate Stored(f: SliderFns, magics: seq<Magic>, table: seq<BitBoard>, t: Square)
  {
    |magics| == 64 && WellFormed(magics[t])
    && forall o :: o <= magics[t].mask ==>
      Key(magics[t], o) < |table| && table[Key(magics[t], o)] == f.attacks(t, o)
  }

  /// An earlier square's entries survive writes from a later square's
  /// offset on.
  lemma StoredPrefix(f: SliderFns, magics: seq<Magic>, total: nat, before: seq<BitBoard>, after: seq<BitBoard>, t: Square, s: Square)
    requires ValidMagics(f, magics, total) && t < s
    requires Stored(f, magics, before, t)
    requires |after| == |before| && magics[s].offset <= |before|
    requires after[..magics[s].offset] == before[..magics[s].offset]
    ensures Stored(f, magics, after, t)
  {
    forall o | o <= magics[t].mask
      ensures after[Key(magics[t], o)] == before[Key(magics[t], o)]
    {
      EndBeforeStart(f, magics, total, t, s);
      assert Key(magics[t], o) < magics[s].offset;
      assert after[Key(magics[t], o)] == after[..magics[s].offset][Key(magics[t], o)];
    }
  }

  /// Two enumerated blocker sets of one square sharing a key share their
  /// attacks, so a later write never changes an earlier entry.
  lemma SameKeySameAttacks(f: SliderFns, magics: seq<Magic>, total: nat, s: Square, occupancies: seq<BitBoard>, k: nat)
    requires ValidMagics(f, magics, total) && k < |occupancies|
    requires forall i :: 0 <= i < |occupancies| ==> occupancies[i] == Combination(f.mask(s), i)
    ensures forall i :: 0 <= i < k && Key(magics[s], occupancies[i]) == Key(magics[s], occupancies[k]) ==>
      f.attacks(s, occupancies[i]) == f.attacks(s, occupancies[k])
  {
    assert MagicFor(f, s, magics[s]);
  }

  /// The first k enumerated blocker sets find their attacks at their keys.
  ghost predicate StoredUpTo(f: SliderFns, m: Magic, s: Square, occupancies: seq<BitBoard>, table: seq<BitBoard>, k: nat)
    requires WellFormed(m) && k <= |occupancies|
  {
    forall i :: 0 <= i < k ==>
      Key(m, occupancies[i]) < |table| && table[Key(m, occupancies[i])] == f.attacks(s, occupancies[i])
  }

  /// Storing the k-th blocker set keeps the earlier ones, since any of them
  /// with the same key has the same attacks.
  lemma StoreKeeps(f: SliderFns, m: Magic, s: Square, occupancies: seq<BitBoard>, k: nat, before: seq<BitBoard>, after: seq<BitBoard>)
    requires WellFormed(m) && k < |occupancies|
    requires StoredUpTo(f, m, s, occupancies, before, k)
    requires Key(m, occupancies[k]) < |before|
    requires after == before[Key(m, occupancies[k]) := f.attacks(s, occupancies[k])]
    requires forall i :: 0 <= i < k && Key(m, occupancies[i]) == Key(m, occupancies[k]) ==>
      f.attacks(s, occupancies[i]) == f.attacks(s, occupancies[k])
    ensures StoredUpTo(f, m, s, occupancies, after, k + 1)
  {
  }

  /// The inner loop of `generate_bishop_attacks` / `generate_rook_attacks`
  /// for one square: every blocker set of the mask stores its attacks at
  /// its key. Entries of earlier squares are untouched.
  method StoreSquare(f: SliderFns, magics: seq<Magic>, total: nat, s: Square, table: array<BitBoard>)
    requires Sound(f) && ValidMagics(f, magics, total) && table.Length == total
    requires forall t: Square :: t < s ==> Stored(f, magics, table[..], t)
    modifies table
    ensures forall t: Square :: t <= s ==> Stored(f, magics, table[..], t)
  {
    var m := magics[s];
    assert MagicFor(f, s, m);
    ghost var start := table[..];
    KeyBelowTotal(f, magics, total, s, EMPTY);
    var occupancies := AllOccupancies(f.mask(s));
    for k := 0 to |occupancies|
      invariant table[..m.offset] == start[..m.offset]
      invariant StoredUpTo(f, m, s, occupancies, table[..], k)
    {
      var occupancy := occupancies[k];
      var attacks := f.attacks(s, occupancy);
      var key := Key(m, occupancy);
      KeyBelowTotal(f, magics, total, s, occupancy);
      SameKeySameAttacks(f, magics, total, s, occupancies, k);
      ghost var before := table[..];
      table[key] := attacks;
      StoreKeeps(f, m, s, occupancies, k, before, table[..]);
    }
    forall t: Square | t < s
      ensures Stored(f, magics, table[..], t)
    {
      StoredPrefix(f, magics, total, start, table[..], t, s);
    }
    forall o | o <= m.mask
      ensures Key(m, o) < table.Length && table[..][Key(m, o)] == f.attacks(s, o)
    {
      AllSubsetsEnumerated(m.mask, occupancies, o);
    }
  }

  /// `generate_bishop_attacks` / `generate_rook_attacks` over the slider's
  /// functions: a table of the total size where every blocker set of every
  /// square's mask stores its attacks at its key, so that a lookup of any
  /// occupancy through the magics gives that square's attacks.
  method GenerateAttacksWith(f: SliderFns, magics: seq<Magic>, total: nat) returns (table: array<BitBoard>)
    requires Sound(f) && ValidMagics(f, magics, total)
    ensures table.Length == total
    ensures forall s: Square, occ :: Key(magics[s], occ) < total && table[Key(magics[s], occ)] == f.attacks(s, occ)
  {
    table := new BitBoard[total](_ => EMPTY);
    for s := 0 to 64
      invariant forall t: Square :: t < s ==> Stored(f, magics, table[..], t)
    {
      StoreSquare(f, magics, total, s, table);
    }
    forall s: Square, occ
      ensures Key(magics[s], occ) < total && table[Key(magics[s], occ)] == f.attacks(s, occ)
    {
      MaskedLookup(f, s, magics[s], occ);
      assert Stored(f, magics, table[..], s);
    }
  }

  /// Masking the occupancy first changes neither the key nor the attacks.
  lemma MaskedLookup(f: SliderFns, s: Square, m: Magic, occ: BitBoard)
    requires Sound(f) && m.mask == f.mask(s) && WellFormed(m)
    ensures Key(m, occ) == Key(m, occ * m.mask)
    ensures f.attacks(s, occ) == f.attacks(s, occ * m.mask)
  {
    assert (occ * m.mask) * m.mask == occ * m.mask;
    KeyIgnoresUnmasked(occ, occ * m.mask, m.mask, m.magic, m.shift);
  }

  /// `generate_bishop_magics` / `generate_rook_magics`, drawing candidates
  /// from a finite stream shared by all squares (the source draws from a
  /// seeded generator forever). When the stream runs out the search fails.
  method GenerateMagics(kind: Slider, candidates: seq<nat>) returns (found: bool, magics: seq<Magic>, total: nat)
    requires forall i :: 0 <= i < |candidates| ==> candidates[i] < U64_LIMIT
    ensures found ==> Generated(Fns(kind), candidates, magics, total)
  {
    FnsSound(kind);
    found, magics, total := GenerateMagicsWith(Fns(kind), candidates);
  }

  /// `generate_bishop_attacks` / `generate_rook_attacks`: looking up any
  /// occupancy through the magics gives the ray-cast attacks.
  method GenerateAttacks(kind: Slider, magics: seq<Magic>, total: nat) returns (table: array<BitBoard>)
    requires ValidMagics(Fns(kind), magics, total)
    ensures table.Length == total
    ensures forall s: Square, occ :: Key(magics[s], occ) < total && table[Key(magics[s], occ)] == AttacksSlow(kind, s, occ)
  {
    FnsSound(kind);
    table := GenerateAttacksWith(Fns(kind), magics, total);
    forall s: Square, occ
      ensures Key(magics[s], occ) < total && table[Key(magics[s], occ)] == AttacksSlow(kind, s, occ)
    {
      assert Fns(kind).attacks(s, occ) == AttacksSlow(kind, s, occ);
    }
  }

  /// A valid set of magics for a slider is a perfect hash of its ray-cast
  /// attacks: two occupancies with the same key have the same attacks.
  lemma ValidMagicsHash(kind: Slider, magics: seq<Magic>, total: nat, s: Square, o1: BitBoard, o2: BitBoard)
    requires ValidMagics(Fns(kind), magics, total)
    requires Key(magics[s], o1) == Key(magics[s], o2)
    ensures magics[s].mask == Mask(kind, s)
    ensures AttacksSlow(kind, s, o1) == AttacksSlow(kind, s, o2)
  {
    var f := Fns(kind);
    var m := magics[s];
    FnsSound(kind);
    assert MagicFor(f, s, m);
    MaskedLookup(f, s, m, o1);
    MaskedLookup(f, s, m, o2);
    assert f.attacks(s, o1 * m.mask) == f.attacks(s, o2 * m.mask);
  }
}
