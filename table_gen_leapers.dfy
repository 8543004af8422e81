// The leaper attack tables (src/table_gen/leapers.rs): for every square,
// the squares a pawn of each color, a knight and a king attack. Each entry
// is built by shifting the square's single-bit board, with rank and file
// guards that keep the shifts from wrapping around the board's edges.
module TableGenLeapers {
  import opened Squares
  import opened BitBoards
  import opened Colors
  import Ranks
  import Files

  /// t lies dr ranks up and df files right of s.
  predicate Offset(s: Square, t: Square, dr: int, df: int)
  {
    RankIndex(t) == RankIndex(s) + dr && FileIndex(t) == FileIndex(s) + df
  }

  /// The offset (dr, df) from s stays on the board.
  predicate OnBoard(s: Square, dr: int, df: int)
  {
    0 <= RankIndex(s) + dr < 8 && 0 <= FileIndex(s) + df < 8
  }

  /// The square dr ranks up and df files right of s, as a board: a single
  /// square when it lies on the board, empty otherwise.
  function OffsetSet(s: Square, dr: int, df: int): BitBoard
  {
    assert s == 8 * RankIndex(s) + FileIndex(s);
    if OnBoard(s, dr, df) then {s + 8 * dr + df} else EMPTY
  }

  function Abs(x: int): nat { if x < 0 then -x else x }

  /// The rank a pawn of color c attacks towards: up for White, down for Black.
  function PawnRankStep(c: Color): int
  {
    if c == White then 1 else -1
  }

  /// The squares a pawn of color c on s attacks: one rank forward, one file
  /// to either side.
  function PawnTargets(c: Color, s: Square): BitBoard
  {
    set t: Square | Offset(s, t, PawnRankStep(c), -1) || Offset(s, t, PawnRankStep(c), 1)
  }

  /// A knight's move: two squares along one axis and one along the other.
  predicate KnightJump(s: Square, t: Square)
  {
    var dr := RankIndex(t) - RankIndex(s);
    var df := FileIndex(t) - FileIndex(s);
    (Abs(dr) == 1 && Abs(df) == 2) || (Abs(dr) == 2 && Abs(df) == 1)
  }

  /// The squares a knight on s attacks.
  function KnightTargets(s: Square): BitBoard
  {
    set t: Square | KnightJump(s, t)
  }

  /// A king's step: to any other square at most one rank and one file away.
  predicate KingStep(s: Square, t: Square)
  {
    t != s && Abs(RankIndex(t) - RankIndex(s)) <= 1 && Abs(FileIndex(t) - FileIndex(s)) <= 1
  }

  /// The squares a king on s attacks.
  function KingTargets(s: Square): BitBoard
  {
    set t: Square | KingStep(s, t)
  }

  // Shifting a one-square board moves its square. Up and down are exact:
  // a square pushed past the top or bottom rank falls off the board. Left
  // and right are exact only away from the a- and h-files, where the u64
  // shift would wrap onto the neighbouring rank; the source's guards keep
  // every shift it performs away from those files.

  lemma OriginOffset(s: Square)
    ensures FromSquare(s) == OffsetSet(s, 0, 0)
  {
    forall t: Square
      ensures t in FromSquare(s) <==> t in OffsetSet(s, 0, 0)
    {
      if Offset(s, t, 0, 0) {
        assert t == 8 * RankIndex(t) + FileIndex(t);
      }
    }
  }

  lemma UpOffset(s: Square, dr: int, df: int, dr': int)
    requires 0 <= RankIndex(s) + dr && dr' == dr + 1
    ensures BitBoards.Up(OffsetSet(s, dr, df)) == OffsetSet(s, dr', df)
  {
    forall t: Square
      ensures t in BitBoards.Up(OffsetSet(s, dr, df)) <==> Offset(s, t, dr + 1, df)
    {
      if Offset(s, t, dr + 1, df) {
        assert RankIndex(t) > 0 && Offset(s, t - 8, dr, df);
      }
    }
  }

  lemma DownOffset(s: Square, dr: int, df: int, dr': int)
    requires RankIndex(s) + dr <= 7 && dr' == dr - 1
    ensures BitBoards.Down(OffsetSet(s, dr, df)) == OffsetSet(s, dr', df)
  {
    forall t: Square
      ensures t in BitBoards.Down(OffsetSet(s, dr, df)) <==> Offset(s, t, dr - 1, df)
    {
      if Offset(s, t, dr - 1, df) {
        assert RankIndex(t) < 7 && Offset(s, t + 8, dr, df);
      }
    }
  }

  lemma LeftOffset(s: Square, dr: int, df: int, df': int)
    requires 1 <= FileIndex(s) + df <= 7 && df' == df - 1
    ensures BitBoards.Left(OffsetSet(s, dr, df)) == OffsetSet(s, dr, df')
  {
    forall t: Square
      ensures t in BitBoards.Left(OffsetSet(s, dr, df)) <==> Offset(s, t, dr, df - 1)
    {
      if t < 63 && t + 1 in OffsetSet(s, dr, df) {
        assert Offset(s, t, dr, df - 1);
      }
      if Offset(s, t, dr, df - 1) {
        assert Offset(s, t + 1, dr, df);
      }
    }
  }

  lemma RightOffset(s: Square, dr: int, df: int, df': int)
    requires 0 <= FileIndex(s) + df <= 6 && df' == df + 1
    ensures BitBoards.Right(OffsetSet(s, dr, df)) == OffsetSet(s, dr, df')
  {
    forall t: Square
      ensures t in BitBoards.Right(OffsetSet(s, dr, df)) <==> Offset(s, t, dr, df + 1)
    {
      if t > 0 && t - 1 in OffsetSet(s, dr, df) {
        assert Offset(s, t, dr, df + 1);
      }
      if Offset(s, t, dr, df + 1) {
        assert Offset(s, t - 1, dr, df);
      }
    }
  }

  /// Equal parts give equal unions.
  lemma SameUnion(a: BitBoard, b: BitBoard, c: BitBoard, d: BitBoard,
                  a': BitBoard, b': BitBoard, c': BitBoard, d': BitBoard)
    requires a == a' && b == b' && c == c' && d == d'
    ensures a + b + c + d == a' + b' + c' + d'
  {
  }

  /// An offset that leaves the board names no square.
  lemma OffBoard(s: Square, dr: int, df: int)
    requires !(0 <= RankIndex(s) + dr < 8 && 0 <= FileIndex(s) + df < 8)
    ensures OffsetSet(s, dr, df) == EMPTY
  {
  }

  /// The board OffsetSet holds exactly the square at the offset.
  lemma OffsetMember(s: Square, t: Square, dr: int, df: int)
    ensures t in OffsetSet(s, dr, df) <==> Offset(s, t, dr, df)
  {
    assert s == 8 * RankIndex(s) + FileIndex(s);
    assert t == 8 * RankIndex(t) + FileIndex(t);
  }

  /// `generate_pawn_attacks`, one square and color: the diagonal steps
  /// forward, each taken only when the square is off the edge file it would
  /// wrap across and off the last rank for the color.
  method PawnEntry(c: Color, s: Square) returns (attacks: BitBoard)
    ensures attacks == PawnTargets(c, s)
  {
    var b := FromSquare(s);
    OriginOffset(s);
    var file, rank := File(s), Rank(s);
    var left, right := EMPTY, EMPTY;
    if c == White {
      UpOffset(s, 0, 0, 1);
      if file != Files.A && rank != Ranks.Eighth {
        LeftOffset(s, 1, 0, -1);
        left := BitBoards.Left(BitBoards.Up(b));
      } else {
        OffBoard(s, 1, -1);
      }
      if file != Files.H && rank != Ranks.Eighth {
        RightOffset(s, 1, 0, 1);
        right := BitBoards.Right(BitBoards.Up(b));
      } else {
        OffBoard(s, 1, 1);
      }
      assert right == OffsetSet(s, 1, 1);
    } else {
      DownOffset(s, 0, 0, -1);
      if file != Files.A && rank != Ranks.First {
        LeftOffset(s, -1, 0, -1);
        left := BitBoards.Left(BitBoards.Down(b));
      } else {
        OffBoard(s, -1, -1);
      }
      if file != Files.H && rank != Ranks.First {
        RightOffset(s, -1, 0, 1);
        right := BitBoards.Right(BitBoards.Down(b));
      } else {
        OffBoard(s, -1, 1);
      }
      assert right == OffsetSet(s, -1, 1);
    }
    assert left == OffsetSet(s, PawnRankStep(c), -1);
    assert right == OffsetSet(s, PawnRankStep(c), 1);
    attacks := left + right;
    PawnTargetsByOffset(c, s);
  }

  /// A pawn's two diagonal steps forward.
  lemma PawnTargetsByOffset(c: Color, s: Square)
    ensures PawnTargets(c, s) == OffsetSet(s, PawnRankStep(c), -1) + OffsetSet(s, PawnRankStep(c), 1)
  {
  }

  /// `generate_pawn_attacks`: the 2 x 64 table, indexed by color then square.
  method GeneratePawnAttacks() returns (table: array2<BitBoard>)
    ensures fresh(table)
    ensures table.Length0 == 2 && table.Length1 == 64
    ensures forall c: Color, s: Square :: table[Index(c), s] == PawnTargets(c, s)
  {
    table := new BitBoard[2, 64]((_, _) => EMPTY);
    for s := 0 to 64
      invariant forall c: Color, s': Square :: s' < s ==> table[Index(c), s'] == PawnTargets(c, s')
    {
      var white := PawnEntry(White, s);
      table[Index(White), s] := white;
      var black := PawnEntry(Black, s);
      table[Index(Black), s] := black;
    }
  }

  /// The eight knight jumps, in the order the source tries them.
  lemma KnightTargetsByOffset(s: Square)
    ensures KnightTargets(s) ==
      OffsetSet(s, 1, -2) + OffsetSet(s, 1, 2) + OffsetSet(s, -1, -2) + OffsetSet(s, -1, 2)
      + OffsetSet(s, 2, -1) + OffsetSet(s, -2, -1) + OffsetSet(s, 2, 1) + OffsetSet(s, -2, 1)
  {
    forall t: Square
      ensures t in KnightTargets(s) <==> (t in
        OffsetSet(s, 1, -2) + OffsetSet(s, 1, 2) + OffsetSet(s, -1, -2) + OffsetSet(s, -1, 2)
        + OffsetSet(s, 2, -1) + OffsetSet(s, -2, -1) + OffsetSet(s, 2, 1) + OffsetSet(s, -2, 1))
    {
      KnightMember(s, t);
    }
  }

  /// One square's membership in the knight jumps.
  lemma KnightMember(s: Square, t: Square)
    ensures t in KnightTargets(s) <==> (t in
      OffsetSet(s, 1, -2) + OffsetSet(s, 1, 2) + OffsetSet(s, -1, -2) + OffsetSet(s, -1, 2)
      + OffsetSet(s, 2, -1) + OffsetSet(s, -2, -1) + OffsetSet(s, 2, 1) + OffsetSet(s, -2, 1))
  {
    OffsetMember(s, t, 1, -2); OffsetMember(s, t, 1, 2); OffsetMember(s, t, -1, -2); OffsetMember(s, t, -1, 2);
    OffsetMember(s, t, 2, -1); OffsetMember(s, t, -2, -1); OffsetMember(s, t, 2, 1); OffsetMember(s, t, -2, 1);
  }

  /// The knight's jumps that start with a rank step: up or down one rank,
  /// then two files left or right.
  method KnightRankFirst(s: Square) returns (attacks: BitBoard)
    ensures attacks == OffsetSet(s, 1, -2) + OffsetSet(s, 1, 2) + OffsetSet(s, -1, -2) + OffsetSet(s, -1, 2)
  {
    var b := FromSquare(s);
    var file, rank := Files.ToU8(File(s)), Rank(s);
    var j0, j1, j2, j3 := EMPTY, EMPTY, EMPTY, EMPTY;
    if rank != Ranks.Eighth && file > Files.ToU8(Files.B) {
      j0 := BitBoards.Left(BitBoards.Left(BitBoards.Up(b)));
      assert j0 == OffsetSet(s, 1, -2) by {
        OriginOffset(s); UpOffset(s, 0, 0, 1); LeftOffset(s, 1, 0, -1); LeftOffset(s, 1, -1, -2);
      }
    } else {
      OffBoard(s, 1, -2);
    }
    assert j0 == OffsetSet(s, 1, -2);
    if rank != Ranks.Eighth && file < Files.ToU8(Files.G) {
      j1 := BitBoards.Right(BitBoards.Right(BitBoards.Up(b)));
      assert j1 == OffsetSet(s, 1, 2) by {
        OriginOffset(s); UpOffset(s, 0, 0, 1); RightOffset(s, 1, 0, 1); RightOffset(s, 1, 1, 2);
      }
    } else {
      OffBoard(s, 1, 2);
    }
    assert j1 == OffsetSet(s, 1, 2);
    if rank != Ranks.First && file > Files.ToU8(Files.B) {
      j2 := BitBoards.Left(BitBoards.Left(BitBoards.Down(b)));
      assert j2 == OffsetSet(s, -1, -2) by {
        OriginOffset(s); DownOffset(s, 0, 0, -1); LeftOffset(s, -1, 0, -1); LeftOffset(s, -1, -1, -2);
      }
    } else {
      OffBoard(s, -1, -2);
    }
    assert j2 == OffsetSet(s, -1, -2);
    if rank != Ranks.First && file < Files.ToU8(Files.G) {
      j3 := BitBoards.Right(BitBoards.Right(BitBoards.Down(b)));
      assert j3 == OffsetSet(s, -1, 2) by {
        OriginOffset(s); DownOffset(s, 0, 0, -1); RightOffset(s, -1, 0, 1); RightOffset(s, -1, 1, 2);
      }
    } else {
      OffBoard(s, -1, 2);
    }
    assert j3 == OffsetSet(s, -1, 2);
    attacks := j0 + j1 + j2 + j3;
    SameUnion(j0, j1, j2, j3, OffsetSet(s, 1, -2), OffsetSet(s, 1, 2), OffsetSet(s, -1, -2), OffsetSet(s, -1, 2));
  }

  /// The knight's jumps that start with a file step: left or right one
  /// file, then two ranks up or down.
  method KnightFileFirst(s: Square) returns (attacks: BitBoard)
    ensures attacks == OffsetSet(s, 2, -1) + OffsetSet(s, -2, -1) + OffsetSet(s, 2, 1) + OffsetSet(s, -2, 1)
  {
    var b := FromSquare(s);
    var file, rank := File(s), Ranks.ToU8(Rank(s));
    var j0, j1, j2, j3 := EMPTY, EMPTY, EMPTY, EMPTY;
    if file != Files.A && rank < Ranks.ToU8(Ranks.Seventh) {
      j0 := BitBoards.Up(BitBoards.Up(BitBoards.Left(b)));
      assert j0 == OffsetSet(s, 2, -1) by {
        OriginOffset(s); LeftOffset(s, 0, 0, -1); UpOffset(s, 0, -1, 1); UpOffset(s, 1, -1, 2);
      }
    } else {
      OffBoard(s, 2, -1);
    }
    assert j0 == OffsetSet(s, 2, -1);
    if file != Files.A && rank > Ranks.ToU8(Ranks.Second) {
      j1 := BitBoards.Down(BitBoards.Down(BitBoards.Left(b)));
      assert j1 == OffsetSet(s, -2, -1) by {
        OriginOffset(s); LeftOffset(s, 0, 0, -1); DownOffset(s, 0, -1, -1); DownOffset(s, -1, -1, -2);
      }
    } else {
      OffBoard(s, -2, -1);
    }
    assert j1 == OffsetSet(s, -2, -1);
    if file != Files.H && rank < Ranks.ToU8(Ranks.Seventh) {
      j2 := BitBoards.Up(BitBoards.Up(BitBoards.Right(b)));
      assert j2 == OffsetSet(s, 2, 1) by {
        OriginOffset(s); RightOffset(s, 0, 0, 1); UpOffset(s, 0, 1, 1); UpOffset(s, 1, 1, 2);
      }
    } else {
      OffBoard(s, 2, 1);
    }
    assert j2 == OffsetSet(s, 2, 1);
    if file != Files.H && rank > Ranks.ToU8(Ranks.Second) {
      j3 := BitBoards.Down(BitBoards.Down(BitBoards.Right(b)));
      assert j3 == OffsetSet(s, -2, 1) by {
        OriginOffset(s); RightOffset(s, 0, 0, 1); DownOffset(s, 0, 1, -1); DownOffset(s, -1, 1, -2);
      }
    } else {
      OffBoard(s, -2, 1);
    }
    assert j3 == OffsetSet(s, -2, 1);
    attacks := j0 + j1 + j2 + j3;
    SameUnion(j0, j1, j2, j3, OffsetSet(s, 2, -1), OffsetSet(s, -2, -1), OffsetSet(s, 2, 1), OffsetSet(s, -2, 1));
  }

  /// `generate_knight_attacks`, one square: the eight jumps, each taken only
  /// when its guard keeps it on the board.
  method KnightEntry(s: Square) returns (attacks: BitBoard)
    ensures attacks == KnightTargets(s)
  {
    var rankFirst := KnightRankFirst(s);
    var fileFirst := KnightFileFirst(s);
    attacks := rankFirst + fileFirst;
    KnightTargetsByOffset(s);
  }

  /// `generate_knight_attacks`: the 64-entry table.
  method GenerateKnightAttacks() returns (table: array<BitBoard>)
    ensures fresh(table) && table.Length == 64
    ensures forall s: Square :: table[s] == KnightTargets(s)
  {
    table := new BitBoard[64](_ => EMPTY);
    for s := 0 to 64
      invariant forall s': Square :: s' < s ==> table[s'] == KnightTargets(s')
    {
      table[s] := KnightEntry(s);
    }
  }

  /// The eight king steps, in the order the source tries them.
  lemma KingTargetsByOffset(s: Square)
    ensures KingTargets(s) ==
      OffsetSet(s, -1, 0) + OffsetSet(s, 1, 0) + OffsetSet(s, 0, -1) + OffsetSet(s, 0, 1)
      + OffsetSet(s, -1, -1) + OffsetSet(s, -1, 1) + OffsetSet(s, 1, -1) + OffsetSet(s, 1, 1)
  {
    forall t: Square
      ensures t in KingTargets(s) <==> (t in
        OffsetSet(s, -1, 0) + OffsetSet(s, 1, 0) + OffsetSet(s, 0, -1) + OffsetSet(s, 0, 1)
        + OffsetSet(s, -1, -1) + OffsetSet(s, -1, 1) + OffsetSet(s, 1, -1) + OffsetSet(s, 1, 1))
    {
      KingMember(s, t);
    }
  }

  /// One square's membership in the king steps.
  lemma KingMember(s: Square, t: Square)
    ensures t in KingTargets(s) <==> (t in
      OffsetSet(s, -1, 0) + OffsetSet(s, 1, 0) + OffsetSet(s, 0, -1) + OffsetSet(s, 0, 1)
      + OffsetSet(s, -1, -1) + OffsetSet(s, -1, 1) + OffsetSet(s, 1, -1) + OffsetSet(s, 1, 1))
  {
    OffsetMember(s, t, -1, 0); OffsetMember(s, t, 1, 0); OffsetMember(s, t, 0, -1); OffsetMember(s, t, 0, 1);
    OffsetMember(s, t, -1, -1); OffsetMember(s, t, -1, 1); OffsetMember(s, t, 1, -1); OffsetMember(s, t, 1, 1);
    KingStepOffsets(s, t);
  }

  /// A king step is one of the eight unit offsets.
  lemma KingStepOffsets(s: Square, t: Square)
    ensures KingStep(s, t) <==>
      (Offset(s, t, -1, 0) || Offset(s, t, 1, 0) || Offset(s, t, 0, -1) || Offset(s, t, 0, 1)
       || Offset(s, t, -1, -1) || Offset(s, t, -1, 1) || Offset(s, t, 1, -1) || Offset(s, t, 1, 1))
  {
    assert s == 8 * RankIndex(s) + FileIndex(s);
    assert t == 8 * RankIndex(t) + FileIndex(t);
  }

  /// The king's steps straight along a rank or a file.
  method KingOrthogonal(s: Square) returns (attacks: BitBoard)
    ensures attacks == OffsetSet(s, -1, 0) + OffsetSet(s, 1, 0) + OffsetSet(s, 0, -1) + OffsetSet(s, 0, 1)
  {
    var b := FromSquare(s);
    var file, rank := File(s), Rank(s);
    var j0, j1, j2, j3 := EMPTY, EMPTY, EMPTY, EMPTY;
    if rank != Ranks.First {
      j0 := BitBoards.Down(b);
      assert j0 == OffsetSet(s, -1, 0) by {
        OriginOffset(s); DownOffset(s, 0, 0, -1);
      }
    } else {
      OffBoard(s, -1, 0);
    }
    assert j0 == OffsetSet(s, -1, 0);
    if rank != Ranks.Eighth {
      j1 := BitBoards.Up(b);
      assert j1 == OffsetSet(s, 1, 0) by {
        OriginOffset(s); UpOffset(s, 0, 0, 1);
      }
    } else {
      OffBoard(s, 1, 0);
    }
    assert j1 == OffsetSet(s, 1, 0);
    if file != Files.A {
      j2 := BitBoards.Left(b);
      assert j2 == OffsetSet(s, 0, -1) by {
        OriginOffset(s); LeftOffset(s, 0, 0, -1);
      }
    } else {
      OffBoard(s, 0, -1);
    }
    assert j2 == OffsetSet(s, 0, -1);
    if file != Files.H {
      j3 := BitBoards.Right(b);
      assert j3 == OffsetSet(s, 0, 1) by {
        OriginOffset(s); RightOffset(s, 0, 0, 1);
      }
    } else {
      OffBoard(s, 0, 1);
    }
    assert j3 == OffsetSet(s, 0, 1);
    attacks := j0 + j1 + j2 + j3;
    SameUnion(j0, j1, j2, j3, OffsetSet(s, -1, 0), OffsetSet(s, 1, 0), OffsetSet(s, 0, -1), OffsetSet(s, 0, 1));
  }

  /// The king's diagonal steps.
  method KingDiagonal(s: Square) returns (attacks: BitBoard)
    ensures attacks == OffsetSet(s, -1, -1) + OffsetSet(s, -1, 1) + OffsetSet(s, 1, -1) + OffsetSet(s, 1, 1)
  {
    var b := FromSquare(s);
    var file, rank := File(s), Rank(s);
    var j0, j1, j2, j3 := EMPTY, EMPTY, EMPTY, EMPTY;
    if rank != Ranks.First && file != Files.A {
      j0 := BitBoards.Left(BitBoards.Down(b));
      assert j0 == OffsetSet(s, -1, -1) by {
        OriginOffset(s); DownOffset(s, 0, 0, -1); LeftOffset(s, -1, 0, -1);
      }
    } else {
      OffBoard(s, -1, -1);
    }
    assert j0 == OffsetSet(s, -1, -1);
    if rank != Ranks.First && file != Files.H {
      j1 := BitBoards.Right(BitBoards.Down(b));
      assert j1 == OffsetSet(s, -1, 1) by {
        OriginOffset(s); DownOffset(s, 0, 0, -1); RightOffset(s, -1, 0, 1);
      }
    } else {
      OffBoard(s, -1, 1);
    }
    assert j1 == OffsetSet(s, -1, 1);
    if rank != Ranks.Eighth && file != Files.A {
      j2 := BitBoards.Left(BitBoards.Up(b));
      assert j2 == OffsetSet(s, 1, -1) by {
        OriginOffset(s); UpOffset(s, 0, 0, 1); LeftOffset(s, 1, 0, -1);
      }
    } else {
      OffBoard(s, 1, -1);
    }
    assert j2 == OffsetSet(s, 1, -1);
    if rank != Ranks.Eighth && file != Files.H {
      j3 := BitBoards.Right(BitBoards.Up(b));
      assert j3 == OffsetSet(s, 1, 1) by {
        OriginOffset(s); UpOffset(s, 0, 0, 1); RightOffset(s, 1, 0, 1);
      }
    } else {
      OffBoard(s, 1, 1);
    }
    assert j3 == OffsetSet(s, 1, 1);
    attacks := j0 + j1 + j2 + j3;
    SameUnion(j0, j1, j2, j3, OffsetSet(s, -1, -1), OffsetSet(s, -1, 1), OffsetSet(s, 1, -1), OffsetSet(s, 1, 1));
  }

  /// `generate_king_attacks`, one square: the eight steps, each taken only
  /// when its guard keeps it on the board.
  method KingEntry(s: Square) returns (attacks: BitBoard)
    ensures attacks == KingTargets(s)
  {
    var orthogonal := KingOrthogonal(s);
    var diagonal := KingDiagonal(s);
    attacks := orthogonal + diagonal;
    KingTargetsByOffset(s);
  }

  /// `generate_king_attacks`: the 64-entry table.
  method GenerateKingAttacks() returns (table: array<BitBoard>)
    ensures fresh(table) && table.Length == 64
    ensures forall s: Square :: table[s] == KingTargets(s)
  {
    table := new BitBoard[64](_ => EMPTY);
    for s := 0 to 64
      invariant forall s': Square :: s' < s ==> table[s'] == KingTargets(s')
    {
      table[s] := KingEntry(s);
    }
  }

  /// No leaper attacks its own square.
  lemma NoSelfAttack(c: Color, s: Square)
    ensures s !in PawnTargets(c, s) && s !in KnightTargets(s) && s !in KingTargets(s)
  {
  }

  /// Pawn attacks are mirrored between the colors: a white pawn on s
  /// attacks t exactly when a black pawn on t attacks s. This is how a
  /// pawn check is found from the king's square.
  lemma PawnAttacksMirror(s: Square, t: Square)
    ensures t in PawnTargets(White, s) <==> s in PawnTargets(Black, t)
  {
  }

  /// Knight attacks are symmetric.
  lemma KnightSymmetric(s: Square, t: Square)
    ensures t in KnightTargets(s) <==> s in KnightTargets(t)
  {
  }

  /// King attacks are symmetric.
  lemma KingSymmetric(s: Square, t: Square)
    ensures t in KingTargets(s) <==> s in KingTargets(t)
  {
  }

  /// A pawn on its last rank attacks nothing.
  lemma PawnLastRank(c: Color, s: Square)
    requires RankIndex(s) == (if c == White then 7 else 0)
    ensures PawnTargets(c, s) == EMPTY
  {
  }

  /// A pawn attacks at most 2 squares.
  lemma PawnCount(c: Color, s: Square)
    ensures |PawnTargets(c, s)| <= 2
  {
    PawnTargetsByOffset(c, s);
  }

  /// A knight attacks at most 8 squares.
  lemma KnightCount(s: Square)
    ensures |KnightTargets(s)| <= 8
  {
    KnightTargetsByOffset(s);
  }

  /// A king attacks at most 8 squares.
  lemma KingCount(s: Square)
    ensures |KingTargets(s)| <= 8
  {
    KingTargetsByOffset(s);
  }
}
