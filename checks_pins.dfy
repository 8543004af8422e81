// What `calculate_checkers` and `calculate_pinned`
// (src/chessboard/chessboard.rs) compute, in chess terms: the checkers are
// the enemy pieces attacking the king, and the pinned pieces are the
// friendly pieces that are the only thing between the king and an enemy
// slider moving along that line.
module ChecksAndPins {
  import opened Squares
  import opened BitBoards
  import opened Colors
  import opened Pieces
  import opened Positions
  import opened Attacks
  import Geometry
  import Directions
  import SL = TableGenSliders
  import TableGenConnections
  import CT = ChessboardTables

  /// The enemy piece on t attacks the king of the side to move.
  ghost predicate GivesCheck(p: Position, t: Square)
    requires WellFormed(p) && Query(p, King, p.turn) != EMPTY
  {
    var them := Opposite(p.turn);
    exists k: PieceType :: k != King && t in Query(p, k, them)
      && KingSquare(p, p.turn) in AttackSet(k, them, t, Occupancy(p))
  }

  /// A square the king attacks with the pattern of kind k holds an enemy
  /// piece of kind k.
  ghost predicate HitFromKing(p: Position, t: Square, k: PieceType)
    requires WellFormed(p) && Query(p, King, p.turn) != EMPTY
  {
    t in Query(p, k, Opposite(p.turn)) && t in AttackSet(k, p.turn, KingSquare(p, p.turn), Occupancy(p))
  }

  /// Membership in a union of four masked patterns, the queens counted
  /// on both slider patterns.
  lemma ScanUnion(t: Square, qp: BitBoard, pt: BitBoard, qn: BitBoard, nt: BitBoard,
                  qb: BitBoard, qr: BitBoard, qq: BitBoard, ab: BitBoard, ar: BitBoard)
    ensures t in qp * pt + qn * nt + (qb + qq) * ab + (qr + qq) * ar <==>
      (t in qp && t in pt) || (t in qn && t in nt) || (t in qb && t in ab)
      || (t in qr && t in ar) || (t in qq && t in ab + ar)
  {
  }

  /// The attack patterns of the kinds the checkers scan uses.
  lemma KingPatterns(us: Color, king: Square, occ: BitBoard)
    ensures AttackSet(Pawn, us, king, occ) == TableGenLeapers.PawnTargets(us, king)
    ensures AttackSet(Knight, us, king, occ) == TableGenLeapers.KnightTargets(king)
    ensures AttackSet(Bishop, us, king, occ) == SL.AttacksSlow(SL.Bishop, king, occ)
    ensures AttackSet(Rook, us, king, occ) == SL.AttacksSlow(SL.Rook, king, occ)
    ensures AttackSet(Queen, us, king, occ) == SL.AttacksSlow(SL.Bishop, king, occ) + SL.AttacksSlow(SL.Rook, king, occ)
  {
  }

  /// The checkers scan per kind, the queen showing up on both slider
  /// lines.
  lemma CheckersPerKind(p: Position, t: Square)
    requires WellFormed(p) && Query(p, King, p.turn) != EMPTY
    ensures t in Checkers(p) <==>
      HitFromKing(p, t, Pawn) || HitFromKing(p, t, Knight) || HitFromKing(p, t, Bishop)
      || HitFromKing(p, t, Rook) || HitFromKing(p, t, Queen)
  {
    var us := p.turn;
    var them := Opposite(us);
    var king := KingSquare(p, us);
    var occ := Occupancy(p);
    var ab := SL.AttacksSlow(SL.Bishop, king, occ);
    var ar := SL.AttacksSlow(SL.Rook, king, occ);
    var pt := TableGenLeapers.PawnTargets(us, king);
    var nt := TableGenLeapers.KnightTargets(king);
    var qp := Query(p, Pawn, them);
    var qn := Query(p, Knight, them);
    var qb := Query(p, Bishop, them);
    var qr := Query(p, Rook, them);
    var qq := Query(p, Queen, them);
    assert Checkers(p) == qp * pt + qn * nt + (qb + qq) * ab + (qr + qq) * ar;
    ScanUnion(t, qp, pt, qn, nt, qb, qr, qq, ab, ar);
    KingPatterns(us, king, occ);
  }

  /// `calculate_checkers` finds exactly the enemy pieces giving check.
  lemma CheckersMeaning(p: Position, t: Square)
    requires WellFormed(p) && Query(p, King, p.turn) != EMPTY
    ensures t in Checkers(p) <==> GivesCheck(p, t)
  {
    var us := p.turn;
    var king := KingSquare(p, us);
    CheckersPerKind(p, t);
    forall k: PieceType
      ensures t in AttackSet(k, us, king, Occupancy(p)) <==> king in AttackSet(k, Opposite(us), t, Occupancy(p))
    {
      AttackMirror(k, us, king, t, Occupancy(p));
    }
    if GivesCheck(p, t) {
      var k: PieceType :| k != King && t in Query(p, k, Opposite(us)) && king in AttackSet(k, Opposite(us), t, Occupancy(p));
      assert HitFromKing(p, t, k);
    }
  }

  /// The enemy pieces that slide like `kind`: its own kind and queens.
  function Sliders(p: Position, kind: SL.Slider): BitBoard
    requires WellFormed(p)
  {
    var them := Opposite(p.turn);
    (if kind == SL.Rook then Query(p, Rook, them) else Query(p, Bishop, them)) + Query(p, Queen, them)
  }

  /// Looking from the king in direction d, the first piece is the friendly
  /// piece on f and the next one is an enemy slider moving along d.
  ghost predicate PinnedAlong(p: Position, f: Square, d: Directions.Direction)
    requires WellFormed(p) && Query(p, King, p.turn) != EMPTY
  {
    var king := KingSquare(p, p.turn);
    var occ := Occupancy(p);
    f in ColorOccupancy(p, p.turn) && SL.Seen(king, f, d, occ)
    && exists x: Square, kind: SL.Slider :: SL.Moves(kind, d) && x in Sliders(p, kind) && SL.Seen(f, x, d, occ)
  }

  /// A pinner seen through f from the king makes f pinned.
  lemma PinnedFromLine(p: Position, f: Square, d: Directions.Direction, x: Square, kind: SL.Slider)
    requires WellFormed(p) && Query(p, King, p.turn) != EMPTY
    requires f in ColorOccupancy(p, p.turn) && SL.Seen(KingSquare(p, p.turn), f, d, Occupancy(p))
    requires SL.Moves(kind, d) && x in Sliders(p, kind) && SL.Seen(f, x, d, Occupancy(p))
    ensures f in PinnedPieces(p)
  {
    var king := KingSquare(p, p.turn);
    var occ := Occupancy(p);
    var friendly := ColorOccupancy(p, p.turn);
    assert CT.RevealedAt(kind, king, occ, friendly, x);
    assert x in CT.Revealed(kind, king, occ, friendly);
    assert x in Pinners(p);
    Geometry.InDirOpposite(f, x, d);
    Geometry.InDirOpposite(king, f, d);
    assert TableGenConnections.Between(x, king, f);
    assert BehindPinner(Pinners(p), king, f);
  }

  /// On a line from the king, a blocker b seen from the king and a square
  /// x seen from b: an occupied square f strictly between x and the king
  /// can only be b itself.
  lemma OnlyBlocker(king: Square, b: Square, x: Square, f: Square, d1: Directions.Direction,
                    d0: Directions.Direction, occ: BitBoard)
    requires SL.Seen(king, b, d1, occ) && SL.Seen(b, x, d1, occ)
    requires Geometry.InDir(x, f, d0) && Geometry.InDir(f, king, d0) && f in occ
    ensures f == b
  {
    Geometry.InDirTransitive(king, b, x, d1);
    Geometry.InDirOpposite(x, f, d0);
    Geometry.InDirOpposite(f, king, d0);
    Geometry.InDirTransitive(king, f, x, Geometry.Opposite(d0));
    Geometry.InDirUnique(king, x, d1, Geometry.Opposite(d0));
    Geometry.InDirTrichotomy(king, f, b, d1);
  }

  /// A pinner is an enemy slider of some kind that the ghost lookup of
  /// that kind reveals from the king.
  lemma PinnerKind(p: Position, x: Square) returns (kind: SL.Slider)
    requires WellFormed(p) && Query(p, King, p.turn) != EMPTY
    requires x in Pinners(p)
    ensures x in Sliders(p, kind)
    ensures x in CT.Revealed(kind, KingSquare(p, p.turn), Occupancy(p), ColorOccupancy(p, p.turn))
  {
    var king := KingSquare(p, p.turn);
    var occ := Occupancy(p);
    var friendly := ColorOccupancy(p, p.turn);
    if x in Sliders(p, SL.Rook) && x in CT.Revealed(SL.Rook, king, occ, friendly) {
      kind := SL.Rook;
    } else {
      kind := SL.Bishop;
    }
  }

  /// A pinned piece is the first piece from the king along a line whose
  /// next piece is the pinner.
  lemma LineFromPinned(p: Position, f: Square) returns (d: Directions.Direction)
    requires WellFormed(p) && Query(p, King, p.turn) != EMPTY
    requires f in PinnedPieces(p)
    ensures PinnedAlong(p, f, d)
  {
    var king := KingSquare(p, p.turn);
    var occ := Occupancy(p);
    var friendly := ColorOccupancy(p, p.turn);
    assert BehindPinner(Pinners(p), king, f);
    var x :| x in Pinners(p) && TableGenConnections.Between(x, king, f);
    var d0 :| Geometry.InDir(x, f, d0) && Geometry.InDir(f, king, d0);
    var kind := PinnerKind(p, x);
    assert CT.RevealedAt(kind, king, occ, friendly, x);
    var d1, b: Square :| SL.Moves(kind, d1) && b in friendly && SL.Seen(king, b, d1, occ) && SL.Seen(b, x, d1, occ);
    OnlyBlocker(king, b, x, f, d1, d0, occ);
    d := d1;
  }

  /// `calculate_pinned` finds exactly the friendly pieces standing alone
  /// between their king and an enemy slider that moves along that line.
  lemma PinnedMeaning(p: Position, f: Square)
    requires WellFormed(p) && Query(p, King, p.turn) != EMPTY
    ensures f in PinnedPieces(p) <==> exists d :: PinnedAlong(p, f, d)
  {
    if f in PinnedPieces(p) {
      var d := LineFromPinned(p, f);
    }
    if exists d :: PinnedAlong(p, f, d) {
      var d :| PinnedAlong(p, f, d);
      var x: Square, kind: SL.Slider :| SL.Moves(kind, d) && x in Sliders(p, kind) && SL.Seen(f, x, d, Occupancy(p));
      PinnedFromLine(p, f, d, x, kind);
    }
  }
}
