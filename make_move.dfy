// The rules `make_move` (src/chessboard/chessboard.rs) follows, proved of
// `Play`: the board stays consistent and moves its pieces as chess does,
// the en-passant square is set exactly by a double push, the halfmove
// clock counts toward the fifty-move rule, and castling rights go when a
// king or rook leaves home or a rook is captured in its corner.
module MakeMove {
  import opened Wrappers
  import opened Squares
  import opened Colors
  import opened Pieces
  import opened Castling
  import opened Positions
  import opened MoveEffects
  import BitBoards

  /// `make_move` before the pin and check scans: a sensible move keeps the
  /// board consistent, moves the pieces as `Apply` says and passes the
  /// turn.
  lemma MovedEffect(p: Position, m: Mailbox, mv: Move)
    requires Sound(p, m) && Sensible(m, mv, p.turn)
    ensures Applicable(p, mv)
    ensures Sound(Moved(p, mv), Apply(m, mv, p.turn))
    ensures Moved(p, mv).turn == Opposite(p.turn)
  {
    ClearEpEffect(p, m);
    ToggleTurnEffect(ClearEp(p), m);
    var p1 := ToggleTurn(ClearEp(p));
    RelocateEffect(p1, m, mv, p.turn);
    forall s: Square ensures s in Occupancy(p1) <==> s in Occupancy(p) {
    }
  }

  /// A sensible move never removes the opponent's king: any square holding
  /// it holds it afterwards.
  lemma KingStays(m: Mailbox, mv: Move, us: Color, s: Square)
    requires Sensible(m, mv, us) && m[s] == Some(ColoredPiece(King, Opposite(us)))
    ensures Apply(m, mv, us)[s] == m[s]
  {
  }

  /// `make_move` with a sensible move on a consistent board whose opponent
  /// has a king runs to the end, and the board it leaves is consistent,
  /// holds the pieces `Apply` describes and has the other side to move.
  lemma PlayEffect(p: Position, m: Mailbox, mv: Move, king: Square)
    requires Sound(p, m) && Sensible(m, mv, p.turn)
    requires m[king] == Some(ColoredPiece(King, Opposite(p.turn)))
    ensures CanMake(p, mv)
    ensures Sound(Play(p, mv), Apply(m, mv, p.turn))
    ensures Play(p, mv).turn == Opposite(p.turn)
  {
    MovedEffect(p, m, mv);
    KingStays(m, mv, p.turn, king);
    var q := Moved(p, mv);
    var n := Apply(m, mv, p.turn);
    assert king in q.pieceBbs[Pieces.Index(King)] && king in q.colorBbs[Colors.Index(Opposite(p.turn))];
    assert king in Query(q, King, q.turn);
  }

  /// Only a double push leaves an en-passant square, and it is the square
  /// the pawn passed over.
  lemma PlayEnPassant(p: Position, mv: Move)
    requires CanMake(p, mv)
    ensures Play(p, mv).enPassant == (if mv.DoublePawnPush? then PassedSquare(p.turn, mv.start) else None)
  {
    var p1 := ToggleTurn(ClearEp(p));
    assert p1.enPassant.None?;
    match mv
    case Quiet(start, _, moving) =>
      assert MoverRights(p1, p.turn, start, moving).enPassant.None?;
    case Capture(start, end, moving) =>
      var q := CapturedRookRights(MoverRights(p1, p.turn, start, moving), p.turn, end);
      assert q.enPassant.None?;
    case Castle(_, _, _) =>
    case DoublePawnPush(_, _) =>
    case EnPassant(_, _) =>
    case Promote(_, _, _) =>
    case PromoteCapture(_, end, _) =>
      assert CapturedRookRights(p1, p.turn, end).enPassant.None?;
  }

  /// A pawn moves.
  predicate MovesPawn(mv: Move)
  {
    match mv
    case Quiet(_, _, moving) => moving == Pawn
    case Capture(_, _, moving) => moving == Pawn
    case Castle(_, _, _) => false
    case _ => true
  }

  /// A piece is taken.
  predicate Takes(mv: Move)
  {
    mv.Capture? || mv.EnPassant? || mv.PromoteCapture?
  }

  /// `make_move` resets the clock exactly for pawn moves and captures.
  lemma ResetsClockRule(mv: Move)
    ensures ResetsClock(mv) <==> MovesPawn(mv) || Takes(mv)
  {
  }

  /// The halfmove clock restarts after a pawn move or a capture and
  /// otherwise advances by one, wrapping as a u8.
  lemma PlayClock(p: Position, mv: Move)
    requires CanMake(p, mv)
    ensures Play(p, mv).halfMoveClock == if MovesPawn(mv) || Takes(mv) then 0 else (p.halfMoveClock + 1) % 256
  {
    MovedSteps(p, mv);
    assert Play(p, mv).halfMoveClock == Moved(p, mv).halfMoveClock;
    ResetsClockRule(mv);
  }

  /// Whether a move takes away a castling right: the mover's rights go
  /// when its king moves or castles, one of them when a rook leaves its
  /// corner, and the opponent's when a piece lands on the opponent's rook
  /// corner.
  predicate Revokes(mv: Move, us: Color, side: CastleSide, color: Color)
  {
    var them := Opposite(us);
    match mv
    case Quiet(start, _, moving) =>
      color == us && (moving == King || (moving == Rook && start == RookHome(us, side)))
    case Capture(start, end, moving) =>
      (color == us && (moving == King || (moving == Rook && start == RookHome(us, side))))
      || (color == them && end == RookHome(them, side))
    case Castle(_, _, _) => color == us
    case PromoteCapture(_, end, _) => color == them && end == RookHome(them, side)
    case _ => false
  }

  /// The rights a rook leaving `start` keeps.
  lemma MovingRookRightsRule(p: Position, us: Color, start: Square, side: CastleSide, color: Color)
    ensures IsSet(MovingRookRights(p, us, start).castlingRights, side, color)
        <==> IsSet(p.castlingRights, side, color) && !(color == us && start == RookHome(us, side))
  {
  }

  /// The rights a capture on `end` leaves the opponent.
  lemma CapturedRookRightsRule(p: Position, us: Color, end: Square, side: CastleSide, color: Color)
    ensures IsSet(CapturedRookRights(p, us, end).castlingRights, side, color)
        <==> IsSet(p.castlingRights, side, color) && !(color == Opposite(us) && end == RookHome(Opposite(us), side))
  {
  }

  /// The rights a moving piece leaves its side.
  lemma MoverRightsRule(p: Position, us: Color, start: Square, moving: PieceType, side: CastleSide, color: Color)
    ensures IsSet(MoverRights(p, us, start, moving).castlingRights, side, color)
        <==> IsSet(p.castlingRights, side, color)
             && !(color == us && (moving == King || (moving == Rook && start == RookHome(us, side))))
  {
    if moving != King && moving == Rook {
      MovingRookRightsRule(p, us, start, side, color);
    }
  }

  /// Unsetting both of a color's rights leaves the other color's.
  lemma UnsetColorRightsRule(p: Position, us: Color, side: CastleSide, color: Color)
    ensures IsSet(UnsetColorRights(p, us).castlingRights, side, color)
        <==> IsSet(p.castlingRights, side, color) && color != us
  {
  }

  /// The rights left by the Capture arm.
  lemma CaptureRights(p: Position, start: Square, end: Square, moving: PieceType, us: Color, side: CastleSide, color: Color)
    requires WellFormed(p) && end in Occupancy(p)
    ensures IsSet(CaptureRelocated(p, start, end, moving, us).castlingRights, side, color)
        <==> IsSet(p.castlingRights, side, color) && !Revokes(Capture(start, end, moving), us, side, color)
  {
    var q := MoverRights(p, us, start, moving);
    MoverRightsRule(p, us, start, moving, side, color);
    CapturedRookRightsRule(q, us, end, side, color);
    assert CaptureRelocated(p, start, end, moving, us).castlingRights == CapturedRookRights(q, us, end).castlingRights;
  }

  /// The rights left by the PromoteCapture arm.
  lemma PromoteCaptureRights(p: Position, start: Square, end: Square, target: PieceType, us: Color, side: CastleSide, color: Color)
    requires WellFormed(p) && end in Occupancy(p) && start != end && start in Occupancy(p)
    ensures IsSet(PromoteCaptureRelocated(p, start, end, target, us).castlingRights, side, color)
        <==> IsSet(p.castlingRights, side, color) && !Revokes(PromoteCapture(start, end, target), us, side, color)
  {
    CapturedRookRightsRule(p, us, end, side, color);
    assert PromoteCaptureRelocated(p, start, end, target, us).castlingRights == CapturedRookRights(p, us, end).castlingRights;
  }

  /// The rights left by the Castle arm.
  lemma CastleRights(p: Position, start: Square, end: Square, s: CastleSide, us: Color, side: CastleSide, color: Color)
    requires WellFormed(p)
    ensures IsSet(CastleRelocated(p, start, end, s, us).castlingRights, side, color)
        <==> IsSet(p.castlingRights, side, color) && color != us
  {
    var q := MovePiece(p, RookHome(us, s), RookCastleEnd(us, s), ColoredPiece(Rook, us));
    UnsetColorRightsRule(MovePiece(q, start, end, ColoredPiece(King, us)), us, side, color);
  }

  /// The piece movements of `make_move` keep a right exactly when the move
  /// does not revoke it.
  lemma RelocateRights(p: Position, mv: Move, us: Color, side: CastleSide, color: Color)
    requires ApplicableFor(p, mv, us)
    ensures IsSet(Relocate(p, mv, us).castlingRights, side, color)
        <==> IsSet(p.castlingRights, side, color) && !Revokes(mv, us, side, color)
  {
    match mv
    case Quiet(start, end, moving) =>
      MoverRightsRule(p, us, start, moving, side, color);
    case Capture(start, end, moving) =>
      CaptureRights(p, start, end, moving, us, side, color);
    case Castle(start, end, s) =>
      CastleRights(p, start, end, s, us, side, color);
    case DoublePawnPush(_, _) =>
    case EnPassant(_, _) =>
    case Promote(_, _, _) =>
    case PromoteCapture(start, end, target) =>
      PromoteCaptureRights(p, start, end, target, us, side, color);
  }

  /// After `make_move` a right is set exactly when it was set before and
  /// the move does not revoke it.
  lemma PlayRights(p: Position, mv: Move, side: CastleSide, color: Color)
    requires CanMake(p, mv)
    ensures IsSet(Play(p, mv).castlingRights, side, color)
        <==> IsSet(p.castlingRights, side, color) && !Revokes(mv, p.turn, side, color)
  {
    var p1 := ToggleTurn(ClearEp(p));
    MovedSteps(p, mv);
    RelocateRights(p1, mv, p.turn, side, color);
    assert Play(p, mv).castlingRights == Moved(p, mv).castlingRights;
  }

  /// Every castling right that is set has its king and its rook on their
  /// home squares.
  ghost predicate RightsBacked(m: Mailbox, rights: CastlingRights)
  {
    forall side: CastleSide, color: Color :: IsSet(rights, side, color) ==>
      m[KingHome(color)] == Some(ColoredPiece(King, color))
      && m[RookHome(color, side)] == Some(ColoredPiece(Rook, color))
  }

  /// A sensible move that does not revoke a backed right leaves that
  /// right's king and rook where they were.
  lemma HomesUntouched(m: Mailbox, mv: Move, us: Color, side: CastleSide, color: Color)
    requires Sensible(m, mv, us)
    requires m[KingHome(color)] == Some(ColoredPiece(King, color))
    requires m[RookHome(color, side)] == Some(ColoredPiece(Rook, color))
    requires !Revokes(mv, us, side, color)
    ensures Apply(m, mv, us)[KingHome(color)] == m[KingHome(color)]
    ensures Apply(m, mv, us)[RookHome(color, side)] == m[RookHome(color, side)]
  {
    match mv
    case Castle(start, end, s) =>
      assert color == Opposite(us);
      assert RookHome(us, s) != KingHome(color) && RookHome(us, s) != RookHome(color, side);
      assert RookCastleEnd(us, s) != KingHome(color) && RookCastleEnd(us, s) != RookHome(color, side);
      assert CastleKingEnd(us, s) != KingHome(color) && CastleKingEnd(us, s) != RookHome(color, side);
      assert KingHome(us) != KingHome(color) && KingHome(us) != RookHome(color, side);
    case EnPassant(start, end) =>
    case _ =>
  }

  /// `make_move` keeps every remaining castling right backed by its king
  /// and rook at home, given a sensible move on a consistent board.
  lemma PlayKeepsRightsBacked(p: Position, m: Mailbox, mv: Move, king: Square)
    requires Sound(p, m) && Sensible(m, mv, p.turn)
    requires m[king] == Some(ColoredPiece(King, Opposite(p.turn)))
    requires RightsBacked(m, p.castlingRights)
    ensures CanMake(p, mv)
    ensures RightsBacked(Apply(m, mv, p.turn), Play(p, mv).castlingRights)
  {
    PlayEffect(p, m, mv, king);
    var n := Apply(m, mv, p.turn);
    forall side: CastleSide, color: Color | IsSet(Play(p, mv).castlingRights, side, color)
      ensures n[KingHome(color)] == Some(ColoredPiece(King, color))
      ensures n[RookHome(color, side)] == Some(ColoredPiece(Rook, color))
    {
      PlayRights(p, mv, side, color);
      HomesUntouched(m, mv, p.turn, side, color);
    }
  }
}
