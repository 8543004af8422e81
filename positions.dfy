// The state of a chess board (src/chessboard/chessboard.rs) as a value: the
// fields of `ChessBoard`, the read-only queries on them (`piece_at`,
// `query`, `occupancy`, `is_attacked`, `PartialEq`), and one function per
// private state-changing helper, each giving the state that helper leaves
// behind. `Play` chains them exactly as `make_move` calls the helpers; the
// board class's methods are proved to produce these states.
module Positions {
  import opened Wrappers
  import opened Squares
  import opened BitBoards
  import opened Colors
  import opened Pieces
  import opened Castling
  import opened Attacks
  import Z = Zobrist
  import SL = TableGenSliders
  import TableGenLeapers
  import TableGenConnections
  import CT = ChessboardTables

  /// A move as the generator produces it.
  datatype Move =
    | Quiet(start: Square, end: Square, moving: PieceType)
    | Capture(start: Square, end: Square, moving: PieceType)
    | Castle(start: Square, end: Square, side: CastleSide)
    | DoublePawnPush(start: Square, end: Square)
    | EnPassant(start: Square, end: Square)
    | Promote(start: Square, end: Square, target: PieceType)
    | PromoteCapture(start: Square, end: Square, target: PieceType)

  /// The fields of `ChessBoard`. The halfmove clock is a u8.
  datatype Position = Position(
    pieceBbs: seq<BitBoard>,
    colorBbs: seq<BitBoard>,
    castlingRights: CastlingRights,
    enPassant: Option<Square>,
    turn: Color,
    pinned: BitBoard,
    checkers: BitBoard,
    hash: Z.ZobristHash,
    halfMoveClock: nat)

  /// The fixed array lengths: six piece boards, two color boards.
  predicate WellFormed(p: Position)
  {
    |p.pieceBbs| == 6 && |p.colorBbs| == 2
  }

  /// `query`: the pieces of one kind and color.
  function Query(p: Position, kind: PieceType, color: Color): (r: BitBoard)
    requires WellFormed(p)
    ensures forall s: Square :: s in r <==> s in p.pieceBbs[Pieces.Index(kind)] && s in p.colorBbs[Colors.Index(color)]
  {
    p.pieceBbs[Pieces.Index(kind)] * p.colorBbs[Colors.Index(color)]
  }

  /// `color_occupancy`.
  function ColorOccupancy(p: Position, color: Color): BitBoard
    requires WellFormed(p)
  {
    p.colorBbs[Colors.Index(color)]
  }

  /// `occupancy`: the squares holding a piece of either color.
  function Occupancy(p: Position): (r: BitBoard)
    requires WellFormed(p)
    ensures forall s: Square :: s in r <==> s in p.colorBbs[0] || s in p.colorBbs[1]
  {
    ColorOccupancy(p, White) + ColorOccupancy(p, Black)
  }

  /// Every occupied square is in exactly one piece board and exactly one
  /// color board, and an empty square in none: the layout every board the
  /// crate builds keeps.
  ghost predicate Placement(p: Position)
    requires WellFormed(p)
  {
    (forall s: Square, k1: PieceType, k2: PieceType ::
       s in p.pieceBbs[Pieces.Index(k1)] && s in p.pieceBbs[Pieces.Index(k2)] ==> k1 == k2)
    && p.colorBbs[0] * p.colorBbs[1] == EMPTY
    && (forall s: Square :: (exists k: PieceType :: s in p.pieceBbs[Pieces.Index(k)]) <==> s in Occupancy(p))
  }

  /// `piece_at`: the color is White if the White board holds the square,
  /// else Black if the Black board does, else there is no piece. The kind
  /// is found by first testing pawns, knights and rooks together, then one
  /// board at a time, King being what is left.
  function PieceAt(p: Position, square: Square): (r: Option<ColoredPiece>)
    requires WellFormed(p)
    ensures r.None? <==> square !in Occupancy(p)
    ensures r.Some? ==> square in p.colorBbs[Colors.Index(r.value.color)]
    ensures r.Some? && square in p.colorBbs[0] ==> r.value.color == White
    ensures r.Some? && (exists k: PieceType :: square in p.pieceBbs[Pieces.Index(k)]) ==>
      square in p.pieceBbs[Pieces.Index(r.value.kind)]
  {
    var bb := FromSquare(square);
    OverlapsSquare(p.colorBbs[0], square);
    OverlapsSquare(p.colorBbs[1], square);
    OverlapsSquare(p.pieceBbs[0] + p.pieceBbs[1] + p.pieceBbs[3], square);
    OverlapsSquare(p.pieceBbs[0], square);
    OverlapsSquare(p.pieceBbs[1], square);
    OverlapsSquare(p.pieceBbs[2], square);
    OverlapsSquare(p.pieceBbs[4], square);
    if !Overlaps(p.colorBbs[Colors.Index(White)], bb) && !Overlaps(p.colorBbs[Colors.Index(Black)], bb) then
      None
    else
      var color := if Overlaps(p.colorBbs[Colors.Index(White)], bb) then White else Black;
      var pnr := p.pieceBbs[Pieces.Index(Pawn)] + p.pieceBbs[Pieces.Index(Knight)] + p.pieceBbs[Pieces.Index(Rook)];
      var kind :=
        if Overlaps(pnr, bb) then
          (if Overlaps(p.pieceBbs[Pieces.Index(Pawn)], bb) then Pawn
           else if Overlaps(p.pieceBbs[Pieces.Index(Knight)], bb) then Knight
           else Rook)
        else
          (if Overlaps(p.pieceBbs[Pieces.Index(Bishop)], bb) then Bishop
           else if Overlaps(p.pieceBbs[Pieces.Index(Queen)], bb) then Queen
           else King);
      Some(ColoredPiece(kind, color))
  }

  /// Positions with the same boards report the same pieces.
  lemma PieceAtFrame(p: Position, q: Position, s: Square)
    requires WellFormed(p) && WellFormed(q)
    requires p.pieceBbs == q.pieceBbs && p.colorBbs == q.colorBbs
    ensures PieceAt(p, s) == PieceAt(q, s)
  {
  }

  /// `get_king_square`: the lowest square of the color's king board; the
  /// Rust code unwraps, so the color must have a king.
  function KingSquare(p: Position, color: Color): (s: Square)
    requires WellFormed(p) && Query(p, King, color) != EMPTY
    ensures s in Query(p, King, color)
  {
    ScanForward(Query(p, King, color)).value
  }

  /// A piece of color `attacker` attacks the square when the occupied
  /// squares are `occ`.
  ghost predicate AttackedWith(p: Position, square: Square, attacker: Color, occ: BitBoard)
    requires WellFormed(p)
  {
    exists t: Square, k: PieceType :: t in Query(p, k, attacker) && square in AttackSet(k, attacker, t, occ)
  }

  /// A piece of color `attacker` attacks the square on the board as it
  /// stands.
  ghost predicate AttackedBy(p: Position, square: Square, attacker: Color)
    requires WellFormed(p)
  {
    AttackedWith(p, square, attacker, Occupancy(p))
  }

  /// `is_attacked`: looks from the square outward with each attack pattern
  /// (a pawn of the other color, knight, king, bishop, rook) and tests it
  /// against the attacker's matching pieces. This finds exactly the squares
  /// some piece of `attacker` attacks.
  function IsAttacked(tables: CT.Build, p: Position, square: Square, attacker: Color): (r: bool)
    requires CT.Ready(tables) && WellFormed(p)
    ensures r <==> AttackedBy(p, square, attacker)
  {
    var us := Opposite(attacker);
    var occ := Occupancy(p);
    AttackedFrom(p, square, attacker, occ);
    if Overlaps(Query(p, Pawn, attacker), CT.GetPawnAttacks(square, us)) then true
    else if Overlaps(Query(p, Knight, attacker), CT.GetKnightAttacks(square)) then true
    else if Overlaps(Query(p, King, attacker), CT.GetKingAttacks(square)) then true
    else if Overlaps(Query(p, Bishop, attacker) + Query(p, Queen, attacker), CT.GetBishopAttacks(tables, square, occ)) then true
    else if Overlaps(Query(p, Rook, attacker) + Query(p, Queen, attacker), CT.GetRookAttacks(tables, square, occ)) then true
    else false
  }

  /// The patterns the attack tests cast from the square under the
  /// occupancy `occ`, written with the ray-cast ground truth.
  ghost predicate AttackedFromSquare(p: Position, square: Square, attacker: Color, occ: BitBoard)
    requires WellFormed(p)
  {
    Overlaps(Query(p, Pawn, attacker), TableGenLeapers.PawnTargets(Opposite(attacker), square))
    || Overlaps(Query(p, Knight, attacker), TableGenLeapers.KnightTargets(square))
    || Overlaps(Query(p, King, attacker), TableGenLeapers.KingTargets(square))
    || Overlaps(Query(p, Bishop, attacker) + Query(p, Queen, attacker), SL.AttacksSlow(SL.Bishop, square, occ))
    || Overlaps(Query(p, Rook, attacker) + Query(p, Queen, attacker), SL.AttacksSlow(SL.Rook, square, occ))
  }

  /// For one kind, looking outward with the mirrored pattern meets a
  /// piece of that kind exactly when such a piece attacks the square.
  lemma KindFrom(p: Position, square: Square, attacker: Color, k: PieceType, occ: BitBoard)
    requires WellFormed(p)
    ensures Overlaps(Query(p, k, attacker), AttackSet(k, Opposite(attacker), square, occ))
        <==> exists t: Square :: t in Query(p, k, attacker) && square in AttackSet(k, attacker, t, occ)
  {
    OppositeInvolutive(attacker);
    if Overlaps(Query(p, k, attacker), AttackSet(k, Opposite(attacker), square, occ)) {
      var t :| t in Query(p, k, attacker) * AttackSet(k, Opposite(attacker), square, occ);
      AttackMirror(k, Opposite(attacker), square, t, occ);
    }
    if exists t: Square :: t in Query(p, k, attacker) && square in AttackSet(k, attacker, t, occ) {
      var t: Square :| t in Query(p, k, attacker) && square in AttackSet(k, attacker, t, occ);
      AttackMirror(k, attacker, t, square, occ);
      assert t in Query(p, k, attacker) * AttackSet(k, Opposite(attacker), square, occ);
    }
  }

  /// Looking outward from the square with the mirrored pattern of kind
  /// k meets a piece of that kind.
  ghost predicate KindHits(p: Position, square: Square, attacker: Color, k: PieceType, occ: BitBoard)
    requires WellFormed(p)
  {
    Overlaps(Query(p, k, attacker), AttackSet(k, Opposite(attacker), square, occ))
  }

  /// The five tests of the attack check are the six per-kind tests, the
  /// queen being tested along both the bishop and the rook lines.
  lemma PatternsAsHits(p: Position, square: Square, attacker: Color, occ: BitBoard)
    requires WellFormed(p)
    ensures AttackedFromSquare(p, square, attacker, occ)
        <==> KindHits(p, square, attacker, Pawn, occ) || KindHits(p, square, attacker, Knight, occ)
             || KindHits(p, square, attacker, King, occ) || KindHits(p, square, attacker, Bishop, occ)
             || KindHits(p, square, attacker, Rook, occ) || KindHits(p, square, attacker, Queen, occ)
  {
    var ab := SL.AttacksSlow(SL.Bishop, square, occ);
    var ar := SL.AttacksSlow(SL.Rook, square, occ);
    var qq := Query(p, Queen, attacker);
    OverlapsUnion(Query(p, Bishop, attacker), qq, ab);
    OverlapsUnion(Query(p, Rook, attacker), qq, ar);
    OverlapsUnion(ab, ar, qq);
  }

  /// The five tests of the attack check amount to one test per kind.
  lemma PatternsPerKind(p: Position, square: Square, attacker: Color, occ: BitBoard)
    requires WellFormed(p)
    ensures AttackedFromSquare(p, square, attacker, occ) <==> exists k: PieceType :: KindHits(p, square, attacker, k, occ)
  {
    PatternsAsHits(p, square, attacker, occ);
    if exists k: PieceType :: KindHits(p, square, attacker, k, occ) {
      var k: PieceType :| KindHits(p, square, attacker, k, occ);
      match k
      case Pawn =>
      case Knight =>
      case Bishop =>
      case Rook =>
      case Queen =>
      case King =>
    }
  }

  /// Looking outward from the square finds every attacker and nothing else,
  /// because each pattern is mirrored.
  lemma AttackedFrom(p: Position, square: Square, attacker: Color, occ: BitBoard)
    requires WellFormed(p)
    ensures AttackedFromSquare(p, square, attacker, occ) <==> AttackedWith(p, square, attacker, occ)
  {
    PatternsPerKind(p, square, attacker, occ);
    forall k: PieceType
      ensures KindHits(p, square, attacker, k, occ)
        <==> exists t: Square :: t in Query(p, k, attacker) && square in AttackSet(k, attacker, t, occ)
    {
      KindFrom(p, square, attacker, k, occ);
    }
  }

  // ---------------------------------------------------------------------
  // The private helpers of `make_move`, one state each.

  /// `insert`: ORs the square into the piece's kind and color boards and
  /// hashes the piece in.
  function Insert(p: Position, square: Square, piece: ColoredPiece): (r: Position)
    requires WellFormed(p)
    ensures WellFormed(r)
  {
    var ki := Pieces.Index(piece.kind);
    var ci := Colors.Index(piece.color);
    p.(pieceBbs := p.pieceBbs[ki := p.pieceBbs[ki] + FromSquare(square)],
       colorBbs := p.colorBbs[ci := p.colorBbs[ci] + FromSquare(square)],
       hash := Z.Piece(p.hash, square, piece.kind, piece.color))
  }

  /// `remove`: XORs the square out of the boards of the piece `piece_at`
  /// reports there and hashes it out; the Rust code unwraps, so the square
  /// must be occupied.
  function Remove(p: Position, square: Square): (r: Position)
    requires WellFormed(p) && PieceAt(p, square).Some?
    ensures WellFormed(r)
    ensures forall s: Square :: s != square ==> (s in Occupancy(r) <==> s in Occupancy(p))
  {
    var piece := PieceAt(p, square).value;
    var ki := Pieces.Index(piece.kind);
    var ci := Colors.Index(piece.color);
    p.(pieceBbs := p.pieceBbs[ki := Xor(p.pieceBbs[ki], FromSquare(square))],
       colorBbs := p.colorBbs[ci := Xor(p.colorBbs[ci], FromSquare(square))],
       hash := Z.Piece(p.hash, square, piece.kind, piece.color))
  }

  /// `move_piece`: XORs start and end into the piece's kind and color
  /// boards and hashes the piece out of start and into end.
  function MovePiece(p: Position, start: Square, end: Square, piece: ColoredPiece): (r: Position)
    requires WellFormed(p)
    ensures WellFormed(r)
  {
    var ki := Pieces.Index(piece.kind);
    var ci := Colors.Index(piece.color);
    var both := FromSquare(start) + FromSquare(end);
    p.(pieceBbs := p.pieceBbs[ki := Xor(p.pieceBbs[ki], both)],
       colorBbs := p.colorBbs[ci := Xor(p.colorBbs[ci], both)],
       hash := Z.Piece(Z.Piece(p.hash, start, piece.kind, piece.color), end, piece.kind, piece.color))
  }

  /// The piece and color boards, the en-passant square and the turn are
  /// untouched: only the rights and the hash may differ.
  predicate SameBoards(p: Position, r: Position)
  {
    r.pieceBbs == p.pieceBbs && r.colorBbs == p.colorBbs && r.enPassant == p.enPassant && r.turn == p.turn
  }

  /// `toggle_turn`.
  function ToggleTurn(p: Position): (r: Position)
  {
    p.(turn := Opposite(p.turn), hash := Z.ToggleTurn(p.hash))
  }

  /// `set_castle_right`.
  function SetCastleRight(p: Position, side: CastleSide, color: Color): (r: Position)
  {
    p.(castlingRights := Castling.Set(p.castlingRights, side, color),
       hash := Z.CastleRight(p.hash, side, color))
  }

  /// `unset_castle_right`: only a right that is set is unset and hashed out.
  function UnsetCastleRight(p: Position, side: CastleSide, color: Color): (r: Position)
    ensures SameBoards(p, r)
    ensures !IsSet(r.castlingRights, side, color)
    ensures forall s, c :: (s, c) != (side, color) ==> IsSet(r.castlingRights, s, c) == IsSet(p.castlingRights, s, c)
    ensures Castling.Valid(p.castlingRights) ==> Castling.Valid(r.castlingRights)
  {
    if IsSet(p.castlingRights, side, color) then
      p.(castlingRights := Unset(p.castlingRights, side, color),
         hash := Z.CastleRight(p.hash, side, color))
    else
      p
  }

  /// `unset_color_rights`: kingside, then queenside.
  function UnsetColorRights(p: Position, color: Color): (r: Position)
    ensures SameBoards(p, r)
  {
    UnsetCastleRight(UnsetCastleRight(p, Kingside, color), Queenside, color)
  }

  /// `set_ep`.
  function SetEp(p: Position, square: Square): (r: Position)
  {
    p.(enPassant := Some(square), hash := Z.Ep(p.hash, square))
  }

  /// `clear_ep`: hashes out and forgets the en-passant square, if any.
  function ClearEp(p: Position): (r: Position)
  {
    match p.enPassant
    case Some(square) => p.(enPassant := None, hash := Z.Ep(p.hash, square))
    case None => p
  }

  /// The corner a color's rook starts on for a castle side.
  function RookHome(color: Color, side: CastleSide): Square
  {
    match (color, side)
    case (Black, Queenside) => A8
    case (Black, Kingside) => H8
    case (White, Queenside) => A1
    case (White, Kingside) => H1
  }

  /// The square the rook lands on when castling.
  function RookCastleEnd(color: Color, side: CastleSide): Square
  {
    match (color, side)
    case (Black, Queenside) => D8
    case (Black, Kingside) => F8
    case (White, Queenside) => D1
    case (White, Kingside) => F1
  }

  /// A rook of `us` leaving one of its corners gives up that side.
  function MovingRookRights(p: Position, us: Color, start: Square): (r: Position)
    ensures SameBoards(p, r)
  {
    match (us, start)
    case (Black, 56) => UnsetCastleRight(p, Queenside, us)
    case (Black, 63) => UnsetCastleRight(p, Kingside, us)
    case (White, 0) => UnsetCastleRight(p, Queenside, us)
    case (White, 7) => UnsetCastleRight(p, Kingside, us)
    case _ => p
  }

  /// A capture on one of the opponent's rook corners takes that side's
  /// right from the opponent.
  function CapturedRookRights(p: Position, us: Color, end: Square): (r: Position)
    ensures SameBoards(p, r)
  {
    var them := Opposite(us);
    match (us, end)
    case (Black, 0) => UnsetCastleRight(p, Queenside, them)
    case (Black, 7) => UnsetCastleRight(p, Kingside, them)
    case (White, 56) => UnsetCastleRight(p, Queenside, them)
    case (White, 63) => UnsetCastleRight(p, Kingside, them)
    case _ => p
  }

  /// The rights change of a king or rook moving, the pawn case changing
  /// nothing here.
  function MoverRights(p: Position, us: Color, start: Square, moving: PieceType): (r: Position)
    ensures SameBoards(p, r)
  {
    if moving == King then UnsetColorRights(p, us)
    else if moving == Rook then MovingRookRights(p, us, start)
    else p
  }

  /// The square a double push passes over: above the start for White,
  /// below for Black.
  function PassedSquare(us: Color, start: Square): Option<Square>
  {
    if us == White then Squares.Up(start) else Squares.Down(start)
  }

  /// The square of the pawn an en-passant capture removes: below the end
  /// for White, above for Black.
  function CapturedSquare(us: Color, end: Square): Option<Square>
  {
    if us == White then Squares.Down(end) else Squares.Up(end)
  }

  /// The move, made by `us`, runs without any of the Rust code's unwraps
  /// failing: what it removes is there, and the squares it steps to
  /// exist.
  predicate ApplicableFor(p: Position, mv: Move, us: Color)
  {
    WellFormed(p)
    && match mv
       case Capture(_, end, _) => end in Occupancy(p)
       case DoublePawnPush(start, _) => PassedSquare(us, start).Some?
       case EnPassant(_, end) =>
         CapturedSquare(us, end).Some? && CapturedSquare(us, end).value in Occupancy(p)
       case Promote(start, _, _) => start in Occupancy(p)
       case PromoteCapture(start, end, _) => end in Occupancy(p) && start != end && start in Occupancy(p)
       case _ => true
  }

  /// `make_move`'s unwraps all succeed for the side to move.
  predicate Applicable(p: Position, mv: Move)
  {
    ApplicableFor(p, mv, p.turn)
  }

  /// Whether `make_move` resets the halfmove clock: a pawn move or a
  /// capture.
  predicate ResetsClock(mv: Move)
  {
    match mv
    case Quiet(_, _, moving) => moving == Pawn
    case Castle(_, _, _) => false
    case _ => true
  }

  /// `make_move`'s Capture arm: rights first, then the captured piece
  /// leaves and the mover slides in.
  function CaptureRelocated(p: Position, start: Square, end: Square, moving: PieceType, us: Color): (r: Position)
    requires WellFormed(p) && end in Occupancy(p)
    ensures WellFormed(r)
    ensures r.turn == p.turn && r.halfMoveClock == p.halfMoveClock
  {
    var q := CapturedRookRights(MoverRights(p, us, start, moving), us, end);
    MovePiece(Remove(q, end), start, end, ColoredPiece(moving, us))
  }

  /// `make_move`'s Castle arm: the rook first, then the king, then both of
  /// the mover's rights go.
  function CastleRelocated(p: Position, start: Square, end: Square, side: CastleSide, us: Color): (r: Position)
    requires WellFormed(p)
    ensures WellFormed(r)
    ensures r.turn == p.turn && r.halfMoveClock == p.halfMoveClock
  {
    var q := MovePiece(p, RookHome(us, side), RookCastleEnd(us, side), ColoredPiece(Rook, us));
    UnsetColorRights(MovePiece(q, start, end, ColoredPiece(King, us)), us)
  }

  /// `make_move`'s EnPassant arm: the pawn behind the end square goes,
  /// then the capturing pawn moves.
  function EnPassantRelocated(p: Position, start: Square, end: Square, us: Color): (r: Position)
    requires WellFormed(p)
    requires CapturedSquare(us, end).Some? && CapturedSquare(us, end).value in Occupancy(p)
    ensures WellFormed(r)
    ensures r.turn == p.turn && r.halfMoveClock == p.halfMoveClock
  {
    MovePiece(Remove(p, CapturedSquare(us, end).value), start, end, ColoredPiece(Pawn, us))
  }

  /// `make_move`'s PromoteCapture arm: the opponent's rights, the captured
  /// piece out, the pawn out, the new piece in.
  function PromoteCaptureRelocated(p: Position, start: Square, end: Square, target: PieceType, us: Color): (r: Position)
    requires WellFormed(p) && end in Occupancy(p) && start != end && start in Occupancy(p)
    ensures WellFormed(r)
    ensures r.turn == p.turn && r.halfMoveClock == p.halfMoveClock
  {
    var q := Remove(CapturedRookRights(p, us, end), end);
    Insert(Remove(q, start), end, ColoredPiece(target, us))
  }

  /// The piece movements of `make_move` for a move by `us`, after the
  /// en-passant square was cleared and the turn passed.
  function Relocate(p: Position, mv: Move, us: Color): (r: Position)
    requires ApplicableFor(p, mv, us)
    ensures WellFormed(r)
    ensures r.turn == p.turn && r.halfMoveClock == p.halfMoveClock
  {
    match mv
    case Quiet(start, end, moving) =>
      MovePiece(MoverRights(p, us, start, moving), start, end, ColoredPiece(moving, us))
    case Capture(start, end, moving) => CaptureRelocated(p, start, end, moving, us)
    case Castle(start, end, side) => CastleRelocated(p, start, end, side, us)
    case DoublePawnPush(start, end) =>
      MovePiece(SetEp(p, PassedSquare(us, start).value), start, end, ColoredPiece(Pawn, us))
    case EnPassant(start, end) => EnPassantRelocated(p, start, end, us)
    case Promote(start, end, target) =>
      Insert(Remove(p, start), end, ColoredPiece(target, us))
    case PromoteCapture(start, end, target) => PromoteCaptureRelocated(p, start, end, target, us)
  }

  /// Clearing the en-passant square and passing the turn keep the boards,
  /// so the move's unwraps still hold.
  lemma ApplicableAfterPass(p: Position, mv: Move, us: Color)
    requires ApplicableFor(p, mv, us)
    ensures ApplicableFor(ToggleTurn(ClearEp(p)), mv, us)
  {
    var p1 := ToggleTurn(ClearEp(p));
    assert p1.pieceBbs == p.pieceBbs && p1.colorBbs == p.colorBbs;
    assert Occupancy(p1) == Occupancy(p);
  }

  /// `make_move` up to the recomputation of pins and checkers: clear the
  /// en-passant square, pass the turn, move the pieces, then reset or
  /// advance the u8 halfmove clock.
  function Moved(p: Position, mv: Move): (r: Position)
    requires Applicable(p, mv)
    ensures WellFormed(r)
    ensures r.turn == Opposite(p.turn)
    ensures r.halfMoveClock == if ResetsClock(mv) then 0 else (p.halfMoveClock + 1) % 256
  {
    var us := p.turn;
    var p1 := ToggleTurn(ClearEp(p));
    ApplicableAfterPass(p, mv, us);
    var p2 := Relocate(p1, mv, us);
    p2.(halfMoveClock := if ResetsClock(mv) then 0 else (p2.halfMoveClock + 1) % 256)
  }

  /// `Moved` step by step: the unwraps hold after the turn passes, and
  /// the clock is set on the relocated board.
  lemma MovedSteps(p: Position, mv: Move)
    requires Applicable(p, mv)
    ensures ApplicableFor(ToggleTurn(ClearEp(p)), mv, p.turn)
    ensures Moved(p, mv) == Relocate(ToggleTurn(ClearEp(p)), mv, p.turn)
      .(halfMoveClock := if ResetsClock(mv) then 0 else (p.halfMoveClock + 1) % 256)
  {
    ApplicableAfterPass(p, mv, p.turn);
  }

  /// The squares strictly between the king and one of the pinners.
  ghost function Shadowed(pinners: BitBoard, king: Square): BitBoard
  {
    set f: Square | BehindPinner(pinners, king, f)
  }

  /// f lies strictly between the king and some square of `pinners`.
  ghost predicate BehindPinner(pinners: BitBoard, king: Square, f: Square)
  {
    exists x :: x in pinners && TableGenConnections.Between(x, king, f)
  }

  /// The enemy sliders that see the king once the first friendly piece on
  /// their line is lifted.
  ghost function Pinners(p: Position): BitBoard
    requires WellFormed(p) && Query(p, King, p.turn) != EMPTY
  {
    var us := p.turn;
    var them := Opposite(us);
    var king := KingSquare(p, us);
    var friendly := ColorOccupancy(p, us);
    var occ := Occupancy(p);
    var enemyRooks := Query(p, Rook, them) + Query(p, Queen, them);
    var enemyBishops := Query(p, Bishop, them) + Query(p, Queen, them);
    enemyRooks * CT.Revealed(SL.Rook, king, occ, friendly)
    + enemyBishops * CT.Revealed(SL.Bishop, king, occ, friendly)
  }

  /// `calculate_pinned`'s result: the friendly pieces between the king and
  /// a pinner.
  ghost function PinnedPieces(p: Position): BitBoard
    requires WellFormed(p) && Query(p, King, p.turn) != EMPTY
  {
    ColorOccupancy(p, p.turn) * Shadowed(Pinners(p), KingSquare(p, p.turn))
  }

  /// `calculate_checkers`'s result: enemy pawns, knights, bishops-or-queens
  /// and rooks-or-queens on the matching patterns cast from the king.
  ghost function Checkers(p: Position): BitBoard
    requires WellFormed(p) && Query(p, King, p.turn) != EMPTY
  {
    var us := p.turn;
    var them := Opposite(us);
    var king := KingSquare(p, us);
    var occ := Occupancy(p);
    Query(p, Pawn, them) * TableGenLeapers.PawnTargets(us, king)
    + Query(p, Knight, them) * TableGenLeapers.KnightTargets(king)
    + (Query(p, Bishop, them) + Query(p, Queen, them)) * SL.AttacksSlow(SL.Bishop, king, occ)
    + (Query(p, Rook, them) + Query(p, Queen, them)) * SL.AttacksSlow(SL.Rook, king, occ)
  }

  /// `calculate_extra_data`: pins first, then checkers.
  ghost function WithExtraData(p: Position): (r: Position)
    requires WellFormed(p) && Query(p, King, p.turn) != EMPTY
    ensures r == p.(pinned := r.pinned, checkers := r.checkers)
  {
    var q := p.(pinned := PinnedPieces(p));
    q.(checkers := Checkers(q))
  }

  /// `make_move` can run to the end: no unwrap fails, and the side to move
  /// afterwards still has a king for the pin and check scans.
  ghost predicate CanMake(p: Position, mv: Move)
  {
    Applicable(p, mv) && Query(Moved(p, mv), King, Moved(p, mv).turn) != EMPTY
  }

  /// `make_move`.
  ghost function Play(p: Position, mv: Move): (r: Position)
    requires CanMake(p, mv)
    ensures WellFormed(r)
  {
    WithExtraData(Moved(p, mv))
  }

  /// `PartialEq`: boards are equal when pieces, colors, turn, rights and
  /// en-passant square agree; pins, checkers, hash and clock are ignored.
  predicate Equal(a: Position, b: Position)
  {
    a.pieceBbs == b.pieceBbs && a.colorBbs == b.colorBbs && a.turn == b.turn
    && a.castlingRights == b.castlingRights && a.enPassant == b.enPassant
  }

  /// `Footprint`: the fields that identify a position for repetition.
  datatype Footprint = Footprint(
    pieceBbs: seq<BitBoard>,
    colorBbs: seq<BitBoard>,
    castlingRights: CastlingRights,
    enPassant: Option<Square>,
    turn: Color,
    hash: Z.ZobristHash)

  /// `footprint`.
  function FootprintOf(p: Position): Footprint
  {
    Footprint(p.pieceBbs, p.colorBbs, p.castlingRights, p.enPassant, p.turn, p.hash)
  }
}
