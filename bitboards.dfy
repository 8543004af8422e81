// Bitboards: sets of squares (src/defs/bitboard.rs).
//
// The Rust type stores a bitboard as a u64 whose bit i is set exactly when
// square i is in the set. The model keeps the set itself and recovers the
// u64 through ToU64/FromU64, which are proved to be inverse bijections
// between sets of squares and the integers below 2^64. Bitwise or/and are
// set union/intersection, xor is symmetric difference and negation is the
// complement in the 64 squares.
module BitBoards {
  import opened Wrappers
  import opened Squares
  import Ranks
  import Files

  type BitBoard = set<Square>

  const EMPTY: BitBoard := {}

  const FULL: BitBoard := set s: int | 0 <= s < 64

  /// 2^64, one more than the largest u64.
  const U64_LIMIT: nat := 0x1_0000_0000_0000_0000

  function Pow2(n: nat): (p: nat)
    ensures p >= 1
  {
    if n == 0 then 1 else 2 * Pow2(n - 1)
  }

  /// Bit i of a natural number.
  predicate BitSet(v: nat, i: nat)
  {
    (v / Pow2(i)) % 2 == 1
  }

  /// The value of bits i..63 of a bitboard's u64, shifted down by i.
  function ValueFrom(b: BitBoard, i: nat): nat
    requires i <= 64
    decreases 64 - i
  {
    if i == 64 then 0 else (if i in b then 1 else 0) + 2 * ValueFrom(b, i + 1)
  }

  /// Bits i..63 make a number below 2^(64 - i).
  lemma {:induction false} ValueFromBound(b: BitBoard, i: nat)
    requires i <= 64
    ensures ValueFrom(b, i) < Pow2(64 - i)
    decreases 64 - i
  {
    if i < 64 {
      ValueFromBound(b, i + 1);
      assert Pow2(64 - i) == 2 * Pow2(64 - (i + 1));
    }
  }

  /// A board holds at most the 64 squares; below `i` at most `i` of them.
  lemma {:induction false} BoardSizeBelow(b: BitBoard, i: nat)
    requires i <= 64
    ensures |set s | s in b && s < i| <= i
    decreases i
  {
    if i > 0 {
      BoardSizeBelow(b, i - 1);
      var lower := set s | s in b && s < i - 1;
      var upTo := set s | s in b && s < i;
      assert upTo == if i - 1 in b then lower + {i - 1} else lower;
    }
  }

  /// A board holds at most 64 squares.
  lemma BoardSize(b: BitBoard)
    ensures |b| <= 64
  {
    BoardSizeBelow(b, 64);
    assert (set s | s in b && s < 64) == b;
  }

  /// `to_u64`: the integer whose set bits are the squares of the board.
  function ToU64(b: BitBoard): (v: nat)
    ensures v < U64_LIMIT
  {
    ValueFromBound(b, 0);
    Pow2At64();
    ValueFrom(b, 0)
  }

  /// `from_u64`: the board holding the squares whose bits are set.
  function FromU64(v: nat): (b: BitBoard)
    requires v < U64_LIMIT
    ensures forall s: Square :: s in b <==> BitSet(v, s)
  {
    set s: int | 0 <= s < 64 && BitSet(v, s)
  }

  /// 2^(a+b) == 2^a * 2^b.
  lemma {:induction false} Pow2Add(a: nat, b: nat)
    ensures Pow2(a + b) == Pow2(a) * Pow2(b)
  {
    if a > 0 {
      Pow2Add(a - 1, b);
      assert Pow2(a + b) == 2 * Pow2(a - 1 + b);
    }
  }

  lemma Pow2At64()
    ensures Pow2(64) == U64_LIMIT
  {
    Pow2Add(8, 8);
    assert Pow2(16) == 0x1_0000;
    Pow2Add(16, 16);
    assert Pow2(32) == 0x1_0000_0000;
    Pow2Add(32, 32);
  }

  /// Powers of two grow with the exponent.
  lemma {:induction false} Pow2Monotone(a: nat, b: nat)
    requires a <= b
    ensures Pow2(a) <= Pow2(b)
    decreases b - a
  {
    if a < b {
      Pow2Monotone(a, b - 1);
    }
  }

  /// The table sizes and counter ranges that appear as powers of two.
  lemma Pow2Values()
    ensures Pow2(9) == 512 && Pow2(12) == 4096 && Pow2(15) == 0x8000 && Pow2(16) == 0x1_0000
  {
    assert Pow2(8) == 256;
    assert Pow2(4) == 16;
    Pow2Add(8, 1);
    Pow2Add(8, 4);
    Pow2Add(8, 8);
    assert Pow2(7) == 128;
    Pow2Add(8, 7);
  }

  /// Multiplying by a natural number preserves order.
  lemma MulMonotone(d: nat, a: nat, b: nat)
    requires a <= b
    ensures d * a <= d * b
  {
    assert d * b - d * a == d * (b - a);
  }

  /// Euclidean division is unique.
  lemma DivUnique(x: nat, d: nat, q: nat, r: nat)
    requires d > 0 && r < d && x == d * q + r
    ensures x / d == q && x % d == r
  {
    var q0 := x / d;
    var r0 := x % d;
    assert x == d * q0 + r0;
    if q0 < q {
      MulMonotone(d, q0 + 1, q);
    } else if q < q0 {
      MulMonotone(d, q + 1, q0);
    }
  }

  /// Dividing by 2^(i+1) is dividing by 2^i and then by 2.
  lemma DivPow2Step(x: nat, i: nat)
    ensures x / Pow2(i + 1) == (x / Pow2(i)) / 2
  {
    var p := Pow2(i);
    assert Pow2(i + 1) == 2 * p;
    var q := x / p;
    var r := x % p;
    var q2 := q / 2;
    var r2 := q % 2;
    assert x == p * q + r;
    assert q == 2 * q2 + r2;
    assert p * q == (2 * p) * q2 + p * r2 by {
      assert p * (2 * q2 + r2) == p * (2 * q2) + p * r2;
    }
    MulMonotone(p, r2, 1);
    DivUnique(x, 2 * p, q2, p * r2 + r);
  }

  /// Shifting a bitboard's u64 down by i bits leaves the value of bits i..63.
  lemma {:induction false} ValueFromIsShift(b: BitBoard, i: nat)
    requires i <= 64
    ensures ToU64(b) / Pow2(i) == ValueFrom(b, i)
  {
    if i == 0 {
    } else {
      ValueFromIsShift(b, i - 1);
      DivPow2Step(ToU64(b), i - 1);
      var v := ValueFrom(b, i - 1);
      assert v == (if i - 1 in b then 1 else 0) + 2 * ValueFrom(b, i);
      DivUnique(v, 2, ValueFrom(b, i), if i - 1 in b then 1 else 0);
    }
  }

  /// Bit s of a bitboard's u64 is set exactly when square s is on the board.
  lemma ToU64Bits(b: BitBoard, s: Square)
    ensures BitSet(ToU64(b), s) <==> s in b
  {
    ValueFromIsShift(b, s);
    var v := ValueFrom(b, s);
    assert v == (if s in b then 1 else 0) + 2 * ValueFrom(b, s + 1);
    DivUnique(v, 2, ValueFrom(b, s + 1), if s in b then 1 else 0);
  }

  /// `from_u64(b.to_u64()) == b`.
  lemma ToU64RoundTrip(b: BitBoard)
    ensures FromU64(ToU64(b)) == b
  {
    forall s: Square
      ensures s in FromU64(ToU64(b)) <==> s in b
    {
      ToU64Bits(b, s);
    }
  }

  /// The bits i..63 of the u64 FromU64(v), read back, give v shifted down by i.
  lemma {:induction false} FromU64ValueFrom(v: nat, i: nat)
    requires v < U64_LIMIT && i <= 64
    ensures ValueFrom(FromU64(v), i) == v / Pow2(i)
    decreases 64 - i
  {
    if i == 64 {
      Pow2At64();
      DivUnique(v, Pow2(64), 0, v);
    } else {
      FromU64ValueFrom(v, i + 1);
      DivPow2Step(v, i);
      var q := v / Pow2(i);
      assert q == 2 * (q / 2) + q % 2;
    }
  }

  /// `BitBoard::from_u64(v).to_u64() == v` for every u64.
  lemma FromU64RoundTrip(v: nat)
    requires v < U64_LIMIT
    ensures ToU64(FromU64(v)) == v
  {
    FromU64ValueFrom(v, 0);
    assert Pow2(0) == 1;
  }

  /// ToU64 is injective: two boards with the same u64 are equal.
  lemma ToU64Injective(a: BitBoard, b: BitBoard)
    requires ToU64(a) == ToU64(b)
    ensures a == b
  {
    ToU64RoundTrip(a);
    ToU64RoundTrip(b);
  }

  /// `from_square`: the board holding just one square.
  function FromSquare(s: Square): (b: BitBoard)
    ensures forall t: Square :: t in b <==> t == s
  {
    {s}
  }

  /// `from_squares`: the board holding every square of the list.
  method FromSquares(squares: seq<Square>) returns (b: BitBoard)
    ensures forall s: Square :: s in b <==> s in squares
  {
    b := EMPTY;
    var index := 0;
    while index < |squares|
      invariant 0 <= index <= |squares|
      invariant forall s: Square :: s in b <==> s in squares[..index]
    {
      b := b + FromSquare(squares[index]);
      index := index + 1;
    }
    assert squares[..index] == squares;
  }

  /// `val << k`: every square moves k indices up; squares pushed past 63 are lost.
  function ShiftLeft(b: BitBoard, k: nat): (r: BitBoard)
    ensures forall s: Square :: s in r <==> s >= k && s - k in b
  {
    set s | s in b && s + k < 64 :: s + k
  }

  /// `val >> k`: every square moves k indices down; squares pushed below 0 are lost.
  function ShiftRight(b: BitBoard, k: nat): (r: BitBoard)
    ensures forall s: Square :: s in r <==> s + k < 64 && s + k in b
  {
    set s | s in b && s >= k :: s - k
  }

  /// `up` (`<< 8`): every square moves one rank up; the eighth rank is lost.
  function Up(b: BitBoard): (r: BitBoard)
    ensures forall s: Square :: s in r <==> RankIndex(s) > 0 && s - 8 in b
  {
    ShiftLeft(b, 8)
  }

  /// `down` (`>> 8`): every square moves one rank down; the first rank is lost.
  function Down(b: BitBoard): (r: BitBoard)
    ensures forall s: Square :: s in r <==> RankIndex(s) < 7 && s + 8 in b
  {
    ShiftRight(b, 8)
  }

  /// `left` (`>> 1`): every square moves one index down, so a square on the
  /// A-file wraps to the H-file of the rank below; A1 is lost.
  function Left(b: BitBoard): (r: BitBoard)
    ensures forall s: Square :: s in r <==> s < 63 && s + 1 in b
  {
    ShiftRight(b, 1)
  }

  /// `right` (`<< 1`): every square moves one index up, so a square on the
  /// H-file wraps to the A-file of the rank above; H8 is lost.
  function Right(b: BitBoard): (r: BitBoard)
    ensures forall s: Square :: s in r <==> s > 0 && s - 1 in b
  {
    ShiftLeft(b, 1)
  }

  /// Off the A-file, `left` moves a square to its left neighbour, and a
  /// square on the A-file lands on the H-file one rank lower.
  lemma LeftWraps(s: Square)
    ensures FileIndex(s) > 0 ==> Left(FromSquare(s)) == FromSquare(Squares.Left(s).value)
    ensures FileIndex(s) == 0 && s > 0 ==> Left(FromSquare(s)) == FromSquare(s - 1) && FileIndex(s - 1) == 7
  {
    if s > 0 {
      assert Left(FromSquare(s)) == FromSquare(s - 1);
    }
  }

  /// The first rank, A1..H1.
  const RANK_1: BitBoard := {0, 1, 2, 3, 4, 5, 6, 7}

  /// The A-file, A1..A8.
  const FILE_A: BitBoard := {0, 8, 16, 24, 32, 40, 48, 56}

  /// `from_rank`: the first rank shifted up by eight squares per rank.
  function FromRank(rank: Ranks.Rank): (b: BitBoard)
    ensures forall s: Square :: s in b <==> Rank(s) == rank
  {
    var r := ShiftLeft(RANK_1, Ranks.ToU8(rank) * 8);
    assert forall s: Square :: s in r <==> s / 8 == Ranks.ToU8(rank);
    r
  }

  /// `from_file`: the A-file shifted right by one square per file.
  function FromFile(file: Files.File): (b: BitBoard)
    ensures forall s: Square :: s in b <==> File(s) == file
  {
    var r := ShiftLeft(FILE_A, Files.ToU8(file));
    assert forall s: Square :: s in r <==> s % 8 == Files.ToU8(file);
    r
  }

  /// `overlaps`: the two boards share a square.
  predicate Overlaps(a: BitBoard, b: BitBoard)
  {
    a * b != EMPTY
  }

  /// A board overlaps a single-square board exactly when it holds that square.
  lemma OverlapsSquare(b: BitBoard, s: Square)
    ensures Overlaps(b, FromSquare(s)) <==> s in b
  {
    if s in b {
      assert s in b * FromSquare(s);
    }
  }

  /// A union overlaps a board exactly when one of its parts does.
  lemma OverlapsUnion(a: BitBoard, b: BitBoard, c: BitBoard)
    ensures Overlaps(a + b, c) <==> Overlaps(a, c) || Overlaps(b, c)
    ensures Overlaps(c, a + b) <==> Overlaps(c, a) || Overlaps(c, b)
  {
    assert (a + b) * c == a * c + b * c;
    assert c * (a + b) == c * a + c * b;
  }

  /// `contains`.
  predicate Contains(b: BitBoard, s: Square)
  {
    s in b
  }

  /// `popcnt`: the number of squares on the board.
  function Popcnt(b: BitBoard): nat
  {
    |b|
  }

  /// `is_empty`.
  predicate IsEmpty(b: BitBoard)
  {
    b == EMPTY
  }

  /// `^`: the squares on exactly one of the boards.
  function Xor(a: BitBoard, b: BitBoard): (r: BitBoard)
    ensures forall s: Square :: s in r <==> (s in a) != (s in b)
  {
    (a - b) + (b - a)
  }

  /// `!`: the squares not on the board.
  function Neg(a: BitBoard): (r: BitBoard)
    ensures forall s: Square :: s in r <==> s !in a
  {
    FULL - a
  }

  /// The lowest square at or above index i (u64 trailing-zero count).
  function LowestFrom(b: BitBoard, i: nat): (s: Square)
    requires i < 64 && exists t :: t in b && t >= i
    ensures s in b && s >= i
    ensures forall t :: t in b && t >= i ==> s <= t
    decreases 64 - i
  {
    if i in b then i else LowestFrom(b, i + 1)
  }

  /// The highest square at or below index i (63 minus the u64 leading-zero count).
  function HighestFrom(b: BitBoard, i: int): (s: Square)
    requires 0 <= i < 64 && exists t :: t in b && t <= i
    ensures s in b && s <= i
    ensures forall t :: t in b && t <= i ==> t <= s
    decreases i
  {
    if i in b then i else HighestFrom(b, i - 1)
  }

  /// `b_scan_forward`: the lowest square of the board, None when it is empty.
  function ScanForward(b: BitBoard): (r: Option<Square>)
    ensures r.None? <==> b == EMPTY
    ensures r.Some? ==> r.value in b && forall t :: t in b ==> r.value <= t
  {
    if b == EMPTY then None
    else
      var t :| t in b;
      Some(LowestFrom(b, 0))
  }

  /// `b_scan_reverse`: the highest square of the board, None when it is empty.
  function ScanReverse(b: BitBoard): (r: Option<Square>)
    ensures r.None? <==> b == EMPTY
    ensures r.Some? ==> r.value in b && forall t :: t in b ==> t <= r.value
  {
    if b == EMPTY then None
    else
      var t :| t in b;
      Some(HighestFrom(b, 63))
  }

  /// `Iterator::next`: yields the lowest square and clears its bit
  /// (`val &= val - 1`); an empty board yields None and stays empty.
  method Next(b: BitBoard) returns (square: Option<Square>, rest: BitBoard)
    ensures square == ScanForward(b)
    ensures square.None? ==> rest == b
    ensures square.Some? ==> rest == b - {square.value}
  {
    square := ScanForward(b);
    if square.None? {
      return square, b;
    }
    rest := b - {square.value};
  }

  /// Iterating a board to exhaustion (`for square in board`) visits every
  /// square of the board exactly once, in strictly ascending order.
  method Iterate(b: BitBoard) returns (visited: seq<Square>)
    ensures forall s: Square :: s in visited <==> s in b
    ensures forall i, j :: 0 <= i < j < |visited| ==> visited[i] < visited[j]
    ensures |visited| == |b|
  {
    visited := [];
    var remaining := b;
    while true
      invariant remaining <= b
      invariant forall s: Square :: s in b <==> s in remaining || s in visited
      invariant forall s :: s in visited ==> s !in remaining
      invariant forall i, j :: 0 <= i < j < |visited| ==> visited[i] < visited[j]
      invariant forall i, t :: 0 <= i < |visited| && t in remaining ==> visited[i] < t
      invariant |visited| + |remaining| == |b|
      decreases |remaining|
    {
      var square;
      square, remaining := Next(remaining);
      if square.None? {
        break;
      }
      visited := visited + [square.value];
    }
  }

}
