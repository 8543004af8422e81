// What `make_move` (src/chessboard/chessboard.rs) does to a board, stated
// on a mailbox: the 64 squares each holding a piece or nothing. Each
// private helper is shown to move the mailbox as a chess player expects
// and to keep the bitboards, the Zobrist hash and the castling byte in
// step with it; `Play` then carries the whole board from one consistent
// state to the next.
module MoveEffects {
  import opened Wrappers
  import opened Squares
  import opened BitBoards
  import opened Colors
  import opened Pieces
  import opened Castling
  import opened Positions
  import Z = Zobrist

  type Mailbox = m: seq<Option<ColoredPiece>> | |m| == 64 witness seq(64, _ => None)

  /// The boards hold exactly the pieces of the mailbox: a square is in a
  /// kind's board iff the mailbox has that kind there, and likewise for
  /// colors.
  ghost predicate Realizes(p: Position, m: Mailbox)
    requires WellFormed(p)
  {
    (forall s: Square, k: PieceType :: s in p.pieceBbs[Pieces.Index(k)] <==> m[s].Some? && m[s].value.kind == k)
    && (forall s: Square, c: Color :: s in p.colorBbs[Colors.Index(c)] <==> m[s].Some? && m[s].value.color == c)
  }

  /// The hash is the Zobrist hash of the position.
  ghost predicate Hashed(p: Position)
    requires WellFormed(p)
  {
    Z.Describes(p.hash, p.pieceBbs, p.colorBbs, p.turn == Black, p.castlingRights, p.enPassant)
  }

  /// The invariant every board keeps: consistent boards, hash and rights,
  /// and a clock that fits a u8.
  ghost predicate Sound(p: Position, m: Mailbox)
  {
    WellFormed(p) && Realizes(p, m) && Hashed(p) && Castling.Valid(p.castlingRights) && p.halfMoveClock < 256
  }

  /// On consistent boards, `piece_at` reads the mailbox.
  lemma PieceAtReads(p: Position, m: Mailbox, s: Square)
    requires WellFormed(p) && Realizes(p, m)
    ensures PieceAt(p, s) == m[s]
    ensures Placement(p)
  {
    var r := PieceAt(p, s);
    if m[s].Some? {
      assert s in p.pieceBbs[Pieces.Index(m[s].value.kind)];
      assert s in p.colorBbs[Colors.Index(m[s].value.color)];
      assert r.value.kind == m[s].value.kind;
    }
    forall s: Square ensures (exists k: PieceType :: s in p.pieceBbs[Pieces.Index(k)]) <==> s in Occupancy(p) {
      if m[s].Some? {
        assert s in p.pieceBbs[Pieces.Index(m[s].value.kind)];
        assert s in p.colorBbs[Colors.Index(m[s].value.color)];
      }
    }
    forall s: Square, k1: PieceType, k2: PieceType | s in p.pieceBbs[Pieces.Index(k1)] && s in p.pieceBbs[Pieces.Index(k2)]
      ensures k1 == k2
    {
      assert s in p.pieceBbs[Pieces.Index(k1)] <==> m[s].Some? && m[s].value.kind == k1;
      assert s in p.pieceBbs[Pieces.Index(k2)] <==> m[s].Some? && m[s].value.kind == k2;
    }
    assert Colors.Index(White) == 0 && Colors.Index(Black) == 1;
    assert p.colorBbs[0] * p.colorBbs[1] == EMPTY by {
      forall s: Square | s in p.colorBbs[0] ensures s !in p.colorBbs[1] {
        assert s in p.colorBbs[Colors.Index(White)] <==> m[s].Some? && m[s].value.color == White;
        assert s in p.colorBbs[Colors.Index(Black)] <==> m[s].Some? && m[s].value.color == Black;
      }
    }
  }

  /// Only one mailbox fits a board.
  lemma RealizesUnique(p: Position, m1: Mailbox, m2: Mailbox)
    requires WellFormed(p) && Realizes(p, m1) && Realizes(p, m2)
    ensures m1 == m2
  {
    forall s: Square ensures m1[s] == m2[s] {
      PieceAtReads(p, m1, s);
      PieceAtReads(p, m2, s);
    }
  }

  /// The piece key of a square is in the hash iff the mailbox has that
  /// piece there.
  lemma PieceKeyPresent(p: Position, m: Mailbox, c: Color, k: PieceType, s: Square)
    requires WellFormed(p) && Realizes(p, m)
    ensures Z.Present(Z.PieceKey(c, k, s), p.pieceBbs, p.colorBbs, p.turn == Black, p.castlingRights, p.enPassant)
        <==> m[s] == Some(ColoredPiece(k, c))
  {
  }

  /// Two boards whose mailboxes differ only on the squares `changed`
  /// and whose other hashed fields agree: the hash of the second is the
  /// first one's with the piece keys of those squares toggled as the
  /// mailboxes differ.
  lemma HashFollowsMailbox(p: Position, m: Mailbox, r: Position, n: Mailbox)
    requires WellFormed(p) && WellFormed(r) && Realizes(p, m) && Realizes(r, n) && Hashed(p)
    requires r.turn == p.turn && r.castlingRights == p.castlingRights && r.enPassant == p.enPassant
    requires forall k: Z.ZobristKey :: !k.PieceKey? ==> (k in r.hash.toggled <==> k in p.hash.toggled)
    requires forall c: Color, kind: PieceType, s: Square ::
      (Z.PieceKey(c, kind, s) in r.hash.toggled <==> Z.PieceKey(c, kind, s) in p.hash.toggled)
      <==> ((m[s] == Some(ColoredPiece(kind, c))) == (n[s] == Some(ColoredPiece(kind, c))))
    ensures Hashed(r)
  {
    forall k ensures k in r.hash.toggled <==> Z.Present(k, r.pieceBbs, r.colorBbs, r.turn == Black, r.castlingRights, r.enPassant) {
      match k
      case PieceKey(c, kind, s) =>
        PieceKeyPresent(p, m, c, kind, s);
        PieceKeyPresent(r, n, c, kind, s);
      case _ =>
    }
  }

  /// `insert` on an empty square puts the piece there.
  lemma InsertEffect(p: Position, m: Mailbox, square: Square, piece: ColoredPiece)
    requires Sound(p, m) && m[square].None?
    ensures Sound(Insert(p, square, piece), m[square := Some(piece)])
  {
    var r := Insert(p, square, piece);
    var n := m[square := Some(piece)];
    assert Realizes(r, n) by {
      forall s: Square, c: Color ensures s in r.colorBbs[Colors.Index(c)] <==> n[s].Some? && n[s].value.color == c {
        assert s in p.colorBbs[Colors.Index(c)] <==> m[s].Some? && m[s].value.color == c;
      }
      forall s: Square, k: PieceType ensures s in r.pieceBbs[Pieces.Index(k)] <==> n[s].Some? && n[s].value.kind == k {
        assert s in p.pieceBbs[Pieces.Index(k)] <==> m[s].Some? && m[s].value.kind == k;
      }
    }
    HashFollowsMailbox(p, m, r, n);
  }

  /// `remove` on an occupied square empties it.
  lemma RemoveEffect(p: Position, m: Mailbox, square: Square)
    requires Sound(p, m) && m[square].Some?
    ensures PieceAt(p, square).Some?
    ensures Sound(Remove(p, square), m[square := None])
  {
    PieceAtReads(p, m, square);
    var r := Remove(p, square);
    var n := m[square := None];
    assert Realizes(r, n) by {
      forall s: Square, c: Color ensures s in r.colorBbs[Colors.Index(c)] <==> n[s].Some? && n[s].value.color == c {
        assert s in p.colorBbs[Colors.Index(c)] <==> m[s].Some? && m[s].value.color == c;
      }
      forall s: Square, k: PieceType ensures s in r.pieceBbs[Pieces.Index(k)] <==> n[s].Some? && n[s].value.kind == k {
        assert s in p.pieceBbs[Pieces.Index(k)] <==> m[s].Some? && m[s].value.kind == k;
      }
    }
    HashFollowsMailbox(p, m, r, n);
  }

  /// `move_piece` from a square holding the piece to an empty one carries
  /// the piece over.
  lemma MovePieceEffect(p: Position, m: Mailbox, start: Square, end: Square, piece: ColoredPiece)
    requires Sound(p, m) && m[start] == Some(piece) && m[end].None?
    ensures Sound(MovePiece(p, start, end, piece), m[start := None][end := Some(piece)])
  {
    var r := MovePiece(p, start, end, piece);
    var n := m[start := None][end := Some(piece)];
    assert Realizes(r, n) by {
      forall s: Square, c: Color ensures s in r.colorBbs[Colors.Index(c)] <==> n[s].Some? && n[s].value.color == c {
        assert s in p.colorBbs[Colors.Index(c)] <==> m[s].Some? && m[s].value.color == c;
      }
      forall s: Square, k: PieceType ensures s in r.pieceBbs[Pieces.Index(k)] <==> n[s].Some? && n[s].value.kind == k {
        assert s in p.pieceBbs[Pieces.Index(k)] <==> m[s].Some? && m[s].value.kind == k;
      }
    }
    HashFollowsMailbox(p, m, r, n);
  }

  /// `unset_castle_right` leaves the board consistent and the right off.
  lemma UnsetCastleRightEffect(p: Position, m: Mailbox, side: CastleSide, color: Color)
    requires Sound(p, m)
    ensures Sound(UnsetCastleRight(p, side, color), m)
  {
    var r := UnsetCastleRight(p, side, color);
    forall k ensures k in r.hash.toggled <==> Z.Present(k, r.pieceBbs, r.colorBbs, r.turn == Black, r.castlingRights, r.enPassant) {
      assert k in p.hash.toggled <==> Z.Present(k, p.pieceBbs, p.colorBbs, p.turn == Black, p.castlingRights, p.enPassant);
    }
  }

  /// `set_castle_right` leaves the board consistent and the right on.
  lemma SetCastleRightEffect(p: Position, m: Mailbox, side: CastleSide, color: Color)
    requires Sound(p, m) && !IsSet(p.castlingRights, side, color)
    ensures Sound(SetCastleRight(p, side, color), m)
    ensures IsSet(SetCastleRight(p, side, color).castlingRights, side, color)
  {
    var r := SetCastleRight(p, side, color);
    forall k ensures k in r.hash.toggled <==> Z.Present(k, r.pieceBbs, r.colorBbs, r.turn == Black, r.castlingRights, r.enPassant) {
      assert k in p.hash.toggled <==> Z.Present(k, p.pieceBbs, p.colorBbs, p.turn == Black, p.castlingRights, p.enPassant);
    }
  }

  /// `toggle_turn` passes the move and keeps the hash in step.
  lemma ToggleTurnEffect(p: Position, m: Mailbox)
    requires Sound(p, m)
    ensures Sound(ToggleTurn(p), m) && ToggleTurn(p).turn == Opposite(p.turn)
  {
    var r := ToggleTurn(p);
    forall k ensures k in r.hash.toggled <==> Z.Present(k, r.pieceBbs, r.colorBbs, r.turn == Black, r.castlingRights, r.enPassant) {
      assert k in p.hash.toggled <==> Z.Present(k, p.pieceBbs, p.colorBbs, p.turn == Black, p.castlingRights, p.enPassant);
    }
  }

  /// `clear_ep` forgets the en-passant square and keeps the hash in step.
  lemma ClearEpEffect(p: Position, m: Mailbox)
    requires Sound(p, m)
    ensures Sound(ClearEp(p), m) && ClearEp(p).enPassant.None?
  {
    var r := ClearEp(p);
    forall k ensures k in r.hash.toggled <==> Z.Present(k, r.pieceBbs, r.colorBbs, r.turn == Black, r.castlingRights, r.enPassant) {
      assert k in p.hash.toggled <==> Z.Present(k, p.pieceBbs, p.colorBbs, p.turn == Black, p.castlingRights, p.enPassant);
    }
  }

  /// `set_ep` on a board without an en-passant square keeps the hash in
  /// step. (With one already set, the two file keys would both stay in.)
  lemma SetEpEffect(p: Position, m: Mailbox, square: Square)
    requires Sound(p, m) && p.enPassant.None?
    ensures Sound(SetEp(p, square), m)
  {
    var r := SetEp(p, square);
    forall k ensures k in r.hash.toggled <==> Z.Present(k, r.pieceBbs, r.colorBbs, r.turn == Black, r.castlingRights, r.enPassant) {
      assert k in p.hash.toggled <==> Z.Present(k, p.pieceBbs, p.colorBbs, p.turn == Black, p.castlingRights, p.enPassant);
    }
  }

  /// `unset_color_rights` keeps the board consistent.
  lemma UnsetColorRightsEffect(p: Position, m: Mailbox, us: Color)
    requires Sound(p, m)
    ensures Sound(UnsetColorRights(p, us), m)
  {
    UnsetCastleRightEffect(p, m, Kingside, us);
    UnsetCastleRightEffect(UnsetCastleRight(p, Kingside, us), m, Queenside, us);
  }

  /// A rook leaving its corner keeps the board consistent.
  lemma MovingRookRightsEffect(p: Position, m: Mailbox, us: Color, square: Square)
    requires Sound(p, m)
    ensures Sound(MovingRookRights(p, us, square), m)
  {
    UnsetCastleRightEffect(p, m, Kingside, us);
    UnsetCastleRightEffect(p, m, Queenside, us);
  }

  /// A capture on an enemy rook corner keeps the board consistent.
  lemma CapturedRookRightsEffect(p: Position, m: Mailbox, us: Color, square: Square)
    requires Sound(p, m)
    ensures Sound(CapturedRookRights(p, us, square), m)
  {
    UnsetCastleRightEffect(p, m, Kingside, Opposite(us));
    UnsetCastleRightEffect(p, m, Queenside, Opposite(us));
  }

  /// The rights change of the mover keeps the board consistent.
  lemma MoverRightsEffect(p: Position, m: Mailbox, us: Color, square: Square, moving: PieceType)
    requires Sound(p, m)
    ensures Sound(MoverRights(p, us, square, moving), m)
  {
    if moving == King {
      UnsetColorRightsEffect(p, m, us);
    } else if moving == Rook {
      MovingRookRightsEffect(p, m, us, square);
    }
  }

  /// The king's starting square.
  function KingHome(color: Color): Square
  {
    if color == White then E1 else E8
  }

  /// Where the king lands when castling.
  function CastleKingEnd(color: Color, side: CastleSide): Square
  {
    match (color, side)
    case (White, Kingside) => G1
    case (White, Queenside) => C1
    case (Black, Kingside) => G8
    case (Black, Queenside) => C8
  }

  /// The mailbox after a move by `us`, as the rules of chess describe it:
  /// the mover leaves its start square, a captured piece leaves the board,
  /// and the end square holds the mover (or the piece promoted to); a
  /// castle also carries the rook from its corner to the king's other side.
  function Apply(m: Mailbox, mv: Move, us: Color): Mailbox
  {
    match mv
    case Quiet(start, end, moving) => m[start := None][end := Some(ColoredPiece(moving, us))]
    case Capture(start, end, moving) => m[start := None][end := Some(ColoredPiece(moving, us))]
    case Castle(start, end, side) =>
      m[RookHome(us, side) := None][RookCastleEnd(us, side) := Some(ColoredPiece(Rook, us))]
       [start := None][end := Some(ColoredPiece(King, us))]
    case DoublePawnPush(start, end) => m[start := None][end := Some(ColoredPiece(Pawn, us))]
    case EnPassant(start, end) =>
      var taken := if CapturedSquare(us, end).Some? then m[CapturedSquare(us, end).value := None] else m;
      taken[start := None][end := Some(ColoredPiece(Pawn, us))]
    case Promote(start, end, target) => m[start := None][end := Some(ColoredPiece(target, us))]
    case PromoteCapture(start, end, target) => m[start := None][end := Some(ColoredPiece(target, us))]
  }

  /// What a move from the generator guarantees about the mailbox: the
  /// mover stands on the start square, the end square is empty for a
  /// quiet move and holds an enemy piece other than the king for a
  /// capture, a castle has king and rook at home and the landing squares
  /// free, and an en-passant capture has the enemy pawn behind the end
  /// square.
  ghost predicate Sensible(m: Mailbox, mv: Move, us: Color)
  {
    var them := Opposite(us);
    match mv
    case Quiet(start, end, moving) => m[start] == Some(ColoredPiece(moving, us)) && m[end].None?
    case Capture(start, end, moving) =>
      m[start] == Some(ColoredPiece(moving, us)) && m[end].Some? && m[end].value.color == them && m[end].value.kind != King
    case Castle(start, end, side) =>
      start == KingHome(us) && end == CastleKingEnd(us, side)
      && m[start] == Some(ColoredPiece(King, us)) && m[RookHome(us, side)] == Some(ColoredPiece(Rook, us))
      && m[end].None? && m[RookCastleEnd(us, side)].None?
    case DoublePawnPush(start, end) =>
      m[start] == Some(ColoredPiece(Pawn, us)) && m[end].None? && PassedSquare(us, start).Some?
    case EnPassant(start, end) =>
      m[start] == Some(ColoredPiece(Pawn, us)) && m[end].None? && CapturedSquare(us, end).Some?
      && m[CapturedSquare(us, end).value] == Some(ColoredPiece(Pawn, them))
    case Promote(start, end, _) => m[start] == Some(ColoredPiece(Pawn, us)) && m[end].None?
    case PromoteCapture(start, end, _) =>
      m[start] == Some(ColoredPiece(Pawn, us)) && m[end].Some? && m[end].value.color == them && m[end].value.kind != King
  }

  /// A square is occupied exactly when the mailbox holds a piece there.
  lemma OccupancyReads(p: Position, m: Mailbox, s: Square)
    requires WellFormed(p) && Realizes(p, m)
    ensures s in Occupancy(p) <==> m[s].Some?
  {
    if m[s].Some? {
      assert s in p.colorBbs[Colors.Index(m[s].value.color)];
    } else {
      assert s !in p.colorBbs[Colors.Index(White)];
      assert s !in p.colorBbs[Colors.Index(Black)];
    }
  }

  lemma RelocateQuiet(p: Position, m: Mailbox, start: Square, end: Square, moving: PieceType, us: Color)
    requires Sound(p, m) && m[start] == Some(ColoredPiece(moving, us)) && m[end].None?
    ensures Sound(Relocate(p, Quiet(start, end, moving), us), Apply(m, Quiet(start, end, moving), us))
  {
    MoverRightsEffect(p, m, us, start, moving);
    MovePieceEffect(MoverRights(p, us, start, moving), m, start, end, ColoredPiece(moving, us));
  }

  lemma RelocateCapture(p: Position, m: Mailbox, start: Square, end: Square, moving: PieceType, us: Color)
    requires Sound(p, m) && m[start] == Some(ColoredPiece(moving, us)) && m[end].Some? && start != end
    requires end in Occupancy(p)
    ensures Sound(CaptureRelocated(p, start, end, moving, us), m[start := None][end := Some(ColoredPiece(moving, us))])
  {
    var piece := ColoredPiece(moving, us);
    MoverRightsEffect(p, m, us, start, moving);
    var q := CapturedRookRights(MoverRights(p, us, start, moving), us, end);
    CapturedRookRightsEffect(MoverRights(p, us, start, moving), m, us, end);
    RemoveEffect(q, m, end);
    MovePieceEffect(Remove(q, end), m[end := None], start, end, piece);
    assert m[end := None][start := None][end := Some(piece)] == m[start := None][end := Some(piece)];
  }

  lemma RelocateCastle(p: Position, m: Mailbox, start: Square, end: Square, side: CastleSide, us: Color)
    requires Sound(p, m)
    requires m[start] == Some(ColoredPiece(King, us)) && m[RookHome(us, side)] == Some(ColoredPiece(Rook, us))
    requires m[end].None? && m[RookCastleEnd(us, side)].None?
    requires start != RookHome(us, side) && start != RookCastleEnd(us, side)
    requires end != RookHome(us, side) && end != RookCastleEnd(us, side)
    ensures Sound(CastleRelocated(p, start, end, side, us), Apply(m, Castle(start, end, side), us))
  {
    var rook := ColoredPiece(Rook, us);
    var king := ColoredPiece(King, us);
    MovePieceEffect(p, m, RookHome(us, side), RookCastleEnd(us, side), rook);
    var q := MovePiece(p, RookHome(us, side), RookCastleEnd(us, side), rook);
    var m1 := m[RookHome(us, side) := None][RookCastleEnd(us, side) := Some(rook)];
    MovePieceEffect(q, m1, start, end, king);
    UnsetColorRightsEffect(MovePiece(q, start, end, king), m1[start := None][end := Some(king)], us);
  }

  lemma RelocateDoublePush(p: Position, m: Mailbox, start: Square, end: Square, us: Color)
    requires Sound(p, m) && Sensible(m, DoublePawnPush(start, end), us) && p.enPassant.None?
    ensures Sound(Relocate(p, DoublePawnPush(start, end), us), Apply(m, DoublePawnPush(start, end), us))
  {
    SetEpEffect(p, m, PassedSquare(us, start).value);
    MovePieceEffect(SetEp(p, PassedSquare(us, start).value), m, start, end, ColoredPiece(Pawn, us));
  }

  lemma RelocateEnPassant(p: Position, m: Mailbox, start: Square, end: Square, us: Color, taken: Square)
    requires Sound(p, m) && CapturedSquare(us, end) == Some(taken)
    requires m[start] == Some(ColoredPiece(Pawn, us)) && m[end].None? && m[taken].Some? && start != taken
    requires taken in Occupancy(p)
    ensures Sound(EnPassantRelocated(p, start, end, us), m[taken := None][start := None][end := Some(ColoredPiece(Pawn, us))])
  {
    RemoveEffect(p, m, taken);
    MovePieceEffect(Remove(p, taken), m[taken := None], start, end, ColoredPiece(Pawn, us));
  }

  lemma RelocatePromote(p: Position, m: Mailbox, start: Square, end: Square, target: PieceType, us: Color)
    requires Sound(p, m) && Sensible(m, Promote(start, end, target), us)
    requires ApplicableFor(p, Promote(start, end, target), us)
    ensures Sound(Relocate(p, Promote(start, end, target), us), Apply(m, Promote(start, end, target), us))
  {
    RemoveEffect(p, m, start);
    InsertEffect(Remove(p, start), m[start := None], end, ColoredPiece(target, us));
  }

  lemma RelocatePromoteCapture(p: Position, m: Mailbox, start: Square, end: Square, target: PieceType, us: Color)
    requires Sound(p, m) && m[start].Some? && m[end].Some? && start != end
    requires end in Occupancy(p) && start in Occupancy(p)
    ensures Sound(PromoteCaptureRelocated(p, start, end, target, us), m[start := None][end := Some(ColoredPiece(target, us))])
  {
    var piece := ColoredPiece(target, us);
    CapturedRookRightsEffect(p, m, us, end);
    var q := CapturedRookRights(p, us, end);
    RemoveEffect(q, m, end);
    var q2 := Remove(q, end);
    RemoveEffect(q2, m[end := None], start);
    InsertEffect(Remove(q2, start), m[end := None][start := None], end, piece);
    assert m[end := None][start := None][end := Some(piece)] == m[start := None][end := Some(piece)];
  }

  /// The piece movements of a sensible move run without a failing unwrap,
  /// keep the board consistent and leave the mailbox `Apply` describes.
  lemma RelocateEffect(p: Position, m: Mailbox, mv: Move, us: Color)
    requires Sound(p, m) && Sensible(m, mv, us) && p.enPassant.None?
    ensures ApplicableFor(p, mv, us)
    ensures Sound(Relocate(p, mv, us), Apply(m, mv, us))
  {
    match mv
    case Quiet(start, end, moving) => RelocateQuiet(p, m, start, end, moving, us);
    case Capture(start, end, moving) =>
      OccupancyReads(p, m, end);
      RelocateCapture(p, m, start, end, moving, us);
    case Castle(start, end, side) => RelocateCastle(p, m, start, end, side, us);
    case DoublePawnPush(start, end) => RelocateDoublePush(p, m, start, end, us);
    case EnPassant(start, end) =>
      OccupancyReads(p, m, CapturedSquare(us, end).value);
      RelocateEnPassant(p, m, start, end, us, CapturedSquare(us, end).value);
    case Promote(start, end, target) =>
      OccupancyReads(p, m, start);
      RelocatePromote(p, m, start, end, target, us);
    case PromoteCapture(start, end, target) =>
      OccupancyReads(p, m, start);
      OccupancyReads(p, m, end);
      RelocatePromoteCapture(p, m, start, end, target, us);
  }
}
