// The eighteen slots of the Rust move list (src/movegen/movelist.rs) are
// too few: `push` writes without a bounds check, and the generator pushes
// one entry per piece with targets, queens twice (once from the bishop
// loop and once from the rook loop). A side that has promoted pawns to
// queens can need more entries than there are slots. The rest of the model
// uses a list with room for every entry (MoveLists.CAPACITY).
module MoveListOverflow {
  import opened Wrappers
  import opened Squares
  import opened BitBoards
  import opened Colors
  import opened Pieces
  import opened Positions
  import opened MoveLists
  import opened Generator
  import Castling
  import D = Directions
  import Z = Zobrist
  import SL = TableGenSliders
  import GeneratorRules
  import TableGenLeapers
  import CT = ChessboardTables

  /// White to move with king a1, pawns b2 to f2, knights b1 and g1,
  /// bishops c4 and f4, rooks a4 and h4 and queens b6, d6, f6 and h6 (three
  /// of them promoted pawns: sixteen pieces); Black has only the king on
  /// e8. No castling rights, no en-passant square, no pins, no checks.
  function CrowdedBoard(): (p: Position)
    ensures WellFormed(p)
  {
    Position(
      [{9, 10, 11, 12, 13}, {1, 6}, {26, 29}, {24, 31}, {41, 43, 45, 47}, {0, 60}],
      [{0, 1, 6, 9, 10, 11, 12, 13, 24, 26, 29, 31, 41, 43, 45, 47}, {60}],
      Castling.New(), None, White, EMPTY, EMPTY, Z.ZobristHash({}), 0)
  }

  /// Black has nothing but its king.
  lemma BlackBare(kind: PieceType)
    requires kind != King
    ensures Query(CrowdedBoard(), kind, Black) == EMPTY
  {
    var p := CrowdedBoard();
    assert p.colorBbs[Colors.Index(Black)] == {60};
    assert 60 !in p.pieceBbs[Pieces.Index(kind)];
  }

  /// No White piece is pinned: Black has no slider to pin with.
  lemma CrowdedUnpinned()
    ensures Query(CrowdedBoard(), King, White) != EMPTY
    ensures PinnedPieces(CrowdedBoard()) == EMPTY
  {
    var p := CrowdedBoard();
    assert 0 in Query(p, King, White);
    BlackBare(Rook);
    BlackBare(Bishop);
    BlackBare(Queen);
    assert Pinners(p) == EMPTY;
    assert Shadowed(EMPTY, KingSquare(p, White)) == EMPTY;
  }

  /// The White king is not in check: Black has nothing to give it.
  lemma CrowdedUnchecked()
    ensures Query(CrowdedBoard(), King, White) != EMPTY
    ensures Checkers(CrowdedBoard()) == EMPTY
  {
    var p := CrowdedBoard();
    assert 0 in Query(p, King, White);
    BlackBare(Pawn);
    BlackBare(Knight);
    BlackBare(Rook);
    BlackBare(Bishop);
    BlackBare(Queen);
    NoAttackersNoCheckers(p);
  }

  /// A side with only its king gives no check.
  lemma NoAttackersNoCheckers(p: Position)
    requires WellFormed(p) && Query(p, King, p.turn) != EMPTY
    requires forall kind :: kind != King ==> Query(p, kind, Opposite(p.turn)) == EMPTY
    ensures Checkers(p) == EMPTY
  {
    var them := Opposite(p.turn);
    var king := KingSquare(p, p.turn);
    var occ := Occupancy(p);
    var pawns, knights := Query(p, Pawn, them), Query(p, Knight, them);
    var bishops, rooks, queens := Query(p, Bishop, them), Query(p, Rook, them), Query(p, Queen, them);
    assert pawns == EMPTY && knights == EMPTY && bishops == EMPTY && rooks == EMPTY && queens == EMPTY;
    assert pawns * TableGenLeapers.PawnTargets(p.turn, king) == EMPTY;
    assert knights * TableGenLeapers.KnightTargets(king) == EMPTY;
    assert (bishops + queens) * SL.AttacksSlow(SL.Bishop, king, occ) == EMPTY;
    assert (rooks + queens) * SL.AttacksSlow(SL.Rook, king, occ) == EMPTY;
  }

  /// The board's pins and checkers are those `calculate_extra_data` finds.
  lemma CrowdedExtraData()
    ensures Query(CrowdedBoard(), King, White) != EMPTY
    ensures WithExtraData(CrowdedBoard()) == CrowdedBoard()
  {
    var p := CrowdedBoard();
    CrowdedUnpinned();
    CrowdedUnchecked();
    assert p.(pinned := PinnedPieces(p)) == p;
  }

  /// A slider with an empty square next to it along one of its own lines
  /// has a target.
  lemma SliderStep(tables: CT.Build, p: Position, kind: SL.Slider, sq: Square, d: D.Direction)
    requires Ready(tables, p) && p.pinned == EMPTY
    requires SL.Moves(kind, d) && !D.OnEdge(sq, d) && D.Step(sq, d) !in Occupancy(p)
    ensures D.Step(sq, d) in SliderTargets(tables, p, kind, sq, false, false)
  {
    var t := D.Step(sq, d);
    SL.SeenStep(sq, d, Occupancy(p));
    SL.AttacksSlowSeen(kind, sq, Occupancy(p), t);
    GeneratorRules.SliderTargetsRule(tables, p, kind, sq, false, false, t);
  }

  /// A White pawn with an empty square ahead of it can push.
  lemma PawnPush(tables: CT.Build, p: Position, sq: Square)
    requires Ready(tables, p) && p.turn == White && p.pinned == EMPTY
    requires sq < 56 && sq + 8 !in Occupancy(p)
    ensures sq + 8 in Targets(tables, p, Pawns, sq, false, false)
  {
    GeneratorRules.PawnPushRule(p, sq, sq + 8);
    assert !IsPinned(p, sq);
  }

  /// A knight jump onto a square without a friendly piece is a target.
  lemma KnightJump(tables: CT.Build, p: Position, sq: Square, t: Square)
    requires Ready(tables, p)
    requires TableGenLeapers.KnightJump(sq, t) && t !in ColorOccupancy(p, p.turn)
    ensures t in Targets(tables, p, Knights, sq, false, false)
  {
    assert t in CT.GetKnightAttacks(sq);
  }

  /// The crowded board is one the generator accepts.
  lemma CrowdedReady(tables: CT.Build)
    requires CT.Ready(tables)
    ensures Ready(tables, CrowdedBoard())
  {
    CrowdedExtraData();
  }

  /// The squares holding a piece on the crowded board.
  lemma CrowdedOccupancy()
    ensures Occupancy(CrowdedBoard()) == {0, 1, 6, 9, 10, 11, 12, 13, 24, 26, 29, 31, 41, 43, 45, 47, 60}
  {
  }

  /// The squares next to the White pieces that the witness moves use are
  /// empty.
  lemma CrowdedGaps()
    ensures {16, 17, 18, 19, 20, 21, 23, 32, 35, 38, 39, 49, 50, 51, 52, 53, 54, 55} * Occupancy(CrowdedBoard()) == EMPTY
  {
    CrowdedOccupancy();
  }

  /// The squares the four loops visit on the crowded board.
  lemma CrowdedMovers()
    ensures Movers(CrowdedBoard(), Pawns) == {9, 10, 11, 12, 13}
    ensures Movers(CrowdedBoard(), Knights) == {1, 6}
    ensures Movers(CrowdedBoard(), Bishops) == {26, 29, 41, 43, 45, 47}
    ensures Movers(CrowdedBoard(), Rooks) == {24, 31, 41, 43, 45, 47}
  {
    var p := CrowdedBoard();
    assert Query(p, Pawn, White) == {9, 10, 11, 12, 13};
    assert Query(p, Knight, White) == {1, 6};
    assert Query(p, Bishop, White) == {26, 29};
    assert Query(p, Rook, White) == {24, 31};
    assert Query(p, Queen, White) == {41, 43, 45, 47};
  }

  /// Pawns on b2 to f2 with the squares ahead of them empty all push.
  lemma PawnsMove(tables: CT.Build, p: Position)
    requires Ready(tables, p) && p.turn == White && p.pinned == EMPTY
    requires Movers(p, Pawns) == {9, 10, 11, 12, 13}
    requires {17, 18, 19, 20, 21} * Occupancy(p) == EMPTY
    ensures forall sq :: sq in Movers(p, Pawns) ==> Targets(tables, p, Pawns, sq, false, false) != EMPTY
  {
    forall sq | sq in Movers(p, Pawns)
      ensures Targets(tables, p, Pawns, sq, false, false) != EMPTY
    {
      assert sq + 8 in {17, 18, 19, 20, 21};
      assert sq + 8 !in {17, 18, 19, 20, 21} * Occupancy(p);
      PawnPush(tables, p, sq);
    }
  }

  /// Knights on b1 and g1 with a3 and h3 free of friendly pieces both jump.
  lemma KnightsMove(tables: CT.Build, p: Position)
    requires Ready(tables, p)
    requires Movers(p, Knights) == {1, 6}
    requires 16 !in ColorOccupancy(p, p.turn) && 23 !in ColorOccupancy(p, p.turn)
    ensures forall sq :: sq in Movers(p, Knights) ==> Targets(tables, p, Knights, sq, false, false) != EMPTY
  {
    KnightJump(tables, p, 1, 16);
    KnightJump(tables, p, 6, 23);
  }

  /// Bishops and queens on c4, f4, b6, d6, f6 and h6 with the squares
  /// diagonally above them empty all move.
  lemma BishopsMove(tables: CT.Build, p: Position)
    requires Ready(tables, p) && p.pinned == EMPTY
    requires Movers(p, Bishops) == {26, 29, 41, 43, 45, 47}
    requires {35, 38, 50, 52, 54} * Occupancy(p) == EMPTY
    ensures forall sq :: sq in Movers(p, Bishops) ==> Targets(tables, p, Bishops, sq, false, false) != EMPTY
  {
    forall sq | sq in Movers(p, Bishops)
      ensures Targets(tables, p, Bishops, sq, false, false) != EMPTY
    {
      var d := if sq == 47 then D.UpLeft else D.UpRight;
      assert D.Step(sq, d) in {35, 38, 50, 52, 54};
      assert D.Step(sq, d) !in {35, 38, 50, 52, 54} * Occupancy(p);
      SliderStep(tables, p, SL.Bishop, sq, d);
    }
  }

  /// Rooks and queens on a4, h4, b6, d6, f6 and h6 with the squares above
  /// them empty all move.
  lemma RooksMove(tables: CT.Build, p: Position)
    requires Ready(tables, p) && p.pinned == EMPTY
    requires Movers(p, Rooks) == {24, 31, 41, 43, 45, 47}
    requires {32, 39, 49, 51, 53, 55} * Occupancy(p) == EMPTY
    ensures forall sq :: sq in Movers(p, Rooks) ==> Targets(tables, p, Rooks, sq, false, false) != EMPTY
  {
    forall sq | sq in Movers(p, Rooks)
      ensures Targets(tables, p, Rooks, sq, false, false) != EMPTY
    {
      assert D.Step(sq, D.Up) in {32, 39, 49, 51, 53, 55};
      assert D.Step(sq, D.Up) !in {32, 39, 49, 51, 53, 55} * Occupancy(p);
      SliderStep(tables, p, SL.Rook, sq, D.Up);
    }
  }

  /// Out of check, when every piece the four loops visit has a target, the
  /// list holds an entry per visited square and the king's.
  lemma EveryPieceListed(tables: CT.Build, p: Position)
    requires Ready(tables, p) && p.checkers == EMPTY
    requires forall sq :: sq in Movers(p, Pawns) ==> Targets(tables, p, Pawns, sq, false, false) != EMPTY
    requires forall sq :: sq in Movers(p, Knights) ==> Targets(tables, p, Knights, sq, false, false) != EMPTY
    requires forall sq :: sq in Movers(p, Bishops) ==> Targets(tables, p, Bishops, sq, false, false) != EMPTY
    requires forall sq :: sq in Movers(p, Rooks) ==> Targets(tables, p, Rooks, sq, false, false) != EMPTY
    ensures |GeneratedEntries(tables, p, false)| >=
      |Movers(p, Pawns)| + |Movers(p, Knights)| + |Movers(p, Bishops)| + |Movers(p, Rooks)|
  {
    GeneratorRules.NoCheckAllPieces(tables, p, false);
    EntriesSize(tables, p, Pawns, Movers(p, Pawns), false, false);
    EntriesSize(tables, p, Knights, Movers(p, Knights), false, false);
    EntriesSize(tables, p, Bishops, Movers(p, Bishops), false, false);
    EntriesSize(tables, p, Rooks, Movers(p, Rooks), false, false);
  }

  /// On the crowded board the list `generate_moves` builds has more
  /// entries than the Rust array has slots: five pawns, two knights, six
  /// bishop-loop and six rook-loop entries make nineteen before the king's.
  lemma SourceListOverflows(tables: CT.Build)
    requires CT.Ready(tables)
    ensures Ready(tables, CrowdedBoard())
    ensures |GeneratedEntries(tables, CrowdedBoard(), false)| > SOURCE_CAPACITY
  {
    var p := CrowdedBoard();
    CrowdedReady(tables);
    CrowdedMovers();
    CrowdedGaps();
    assert p.turn == White && p.pinned == EMPTY && p.checkers == EMPTY;
    assert 16 !in ColorOccupancy(p, p.turn) && 23 !in ColorOccupancy(p, p.turn);
    PawnsMove(tables, p);
    KnightsMove(tables, p);
    BishopsMove(tables, p);
    RooksMove(tables, p);
    EveryPieceListed(tables, p);
    MoverCounts();
  }

  /// The sizes of the four sets of visited squares.
  lemma MoverCounts()
    ensures |{9, 10, 11, 12, 13}| + |{1, 6}| + |{26, 29, 41, 43, 45, 47}| + |{24, 31, 41, 43, 45, 47}| == 19
  {
  }
}
