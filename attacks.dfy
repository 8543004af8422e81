// What each piece attacks from a square, and why looking outward from the
// attacked square finds the attackers: every attack pattern is mirrored
// (pawns swap color, the others are symmetric). The board's check, pin
// and attack tests all look from the target square outward.
module Attacks {
  import opened Squares
  import opened BitBoards
  import opened Colors
  import opened Pieces
  import Geometry
  import Directions
  import SL = TableGenSliders
  import TableGenLeapers

  /// The squares a piece of the given kind and color on `from` attacks
  /// under the occupancy `occ`.
  ghost function AttackSet(kind: PieceType, color: Color, from: Square, occ: BitBoard): BitBoard
  {
    match kind
    case Pawn => TableGenLeapers.PawnTargets(color, from)
    case Knight => TableGenLeapers.KnightTargets(from)
    case Bishop => SL.AttacksSlow(SL.Bishop, from, occ)
    case Rook => SL.AttacksSlow(SL.Rook, from, occ)
    case Queen => SL.AttacksSlow(SL.Bishop, from, occ) + SL.AttacksSlow(SL.Rook, from, occ)
    case King => TableGenLeapers.KingTargets(from)
  }

  /// Seeing along a line works from both ends.
  lemma SeenReverse(s: Square, t: Square, d: Directions.Direction, occ: BitBoard)
    requires SL.Seen(s, t, d, occ)
    ensures SL.Seen(t, s, Geometry.Opposite(d), occ)
  {
    Geometry.InDirOpposite(s, t, d);
    forall u: Square | Geometry.InDir(t, u, Geometry.Opposite(d)) && Geometry.InDir(u, s, Geometry.Opposite(d))
      ensures u !in occ
    {
      Geometry.InDirOpposite(t, u, d);
      Geometry.InDirOpposite(u, s, d);
    }
  }

  /// A slider on t is seen from s along a direction of the slider, so
  /// s is seen from t along the opposite one.
  lemma SliderSeenBack(kind: SL.Slider, s: Square, t: Square, occ: BitBoard)
    requires t in SL.AttacksSlow(kind, s, occ)
    ensures s in SL.AttacksSlow(kind, t, occ)
  {
    SL.AttacksSlowSeen(kind, s, occ, t);
    SL.AttacksSlowSeen(kind, t, occ, s);
    var d :| SL.Moves(kind, d) && SL.Seen(s, t, d, occ);
    SeenReverse(s, t, d, occ);
    assert SL.Moves(kind, Geometry.Opposite(d));
  }

  /// A slider on s attacks t exactly when one on t attacks s.
  lemma SliderSymmetric(kind: SL.Slider, s: Square, t: Square, occ: BitBoard)
    ensures t in SL.AttacksSlow(kind, s, occ) <==> s in SL.AttacksSlow(kind, t, occ)
  {
    if t in SL.AttacksSlow(kind, s, occ) {
      SliderSeenBack(kind, s, t, occ);
    }
    if s in SL.AttacksSlow(kind, t, occ) {
      SliderSeenBack(kind, t, s, occ);
    }
  }

  /// The attack pattern of a piece on s hits t exactly when the same kind
  /// of the other color on t hits s.
  lemma AttackMirror(kind: PieceType, color: Color, s: Square, t: Square, occ: BitBoard)
    ensures t in AttackSet(kind, color, s, occ) <==> s in AttackSet(kind, Colors.Opposite(color), t, occ)
  {
    match kind
    case Pawn =>
      if color == White {
        TableGenLeapers.PawnAttacksMirror(s, t);
      } else {
        TableGenLeapers.PawnAttacksMirror(t, s);
      }
    case Knight => TableGenLeapers.KnightSymmetric(s, t);
    case Bishop => SliderSymmetric(SL.Bishop, s, t, occ);
    case Rook => SliderSymmetric(SL.Rook, s, t, occ);
    case Queen =>
      SliderSymmetric(SL.Bishop, s, t, occ);
      SliderSymmetric(SL.Rook, s, t, occ);
    case King => TableGenLeapers.KingSymmetric(s, t);
  }
}
