// `ChessBoard::from_builder` (src/chessboard/chessboard.rs): turning a
// finished builder into a board. The checks run in a fixed order and the
// first one that fails names the error; a builder that passes them all
// becomes a board with no en-passant square, a zero clock and freshly
// computed pins and checkers.
module BuilderConversion {
  import opened Wrappers
  import opened Squares
  import opened BitBoards
  import opened Colors
  import opened Pieces
  import opened Castling
  import opened Positions
  import opened MoveEffects
  import opened MakeMove
  import opened BoardBuilders
  import opened ChessBoards
  import Ranks
  import Z = Zobrist
  import CT = ChessboardTables

  datatype BuilderConversionError =
    | TurnNotSet
    | MissingKing
    | InvalidEnPassant
    | InvalidCastleRight
    | InactiveKingAttacked
    | TooManyPieces

  /// More than 18 pieces of one color.
  predicate Overfull(b: BoardBuilder)
    requires BoardBuilders.WellFormed(b)
  {
    Popcnt(b.colorBbs[Colors.Index(White)]) > 18 || Popcnt(b.colorBbs[Colors.Index(Black)]) > 18
  }

  /// The en-passant square, if any, lies behind a pawn that could just have
  /// made a double push: on rank 6 above a black pawn when White moves, on
  /// rank 3 below a white pawn when Black moves.
  predicate EnPassantFits(m: Mailbox, ep: Option<Square>, turn: Color)
  {
    match ep
    case None => true
    case Some(sq) =>
      if turn == White then
        Rank(sq) == Ranks.Sixth && m[Squares.Down(sq).value] == Some(ColoredPiece(Pawn, Black))
      else
        Rank(sq) == Ranks.Third && m[Squares.Up(sq).value] == Some(ColoredPiece(Pawn, White))
  }

  /// One castling block: when the right `(side, color)` is set, the king must
  /// be home and a rook of that color must stand on `rook`.
  predicate CastleBlock(m: Mailbox, rights: CastlingRights, side: CastleSide, color: Color, rook: Square)
  {
    IsSet(rights, side, color) ==>
      m[KingHome(color)] == Some(ColoredPiece(King, color)) && m[rook] == Some(ColoredPiece(Rook, color))
  }

  /// The four castling blocks as the source writes them: the fourth tests
  /// the black kingside right a second time, against the rook on A8, so the
  /// black queenside right is never checked.
  predicate CastleChecksAsWritten(m: Mailbox, rights: CastlingRights)
  {
    CastleBlock(m, rights, Kingside, White, H1)
    && CastleBlock(m, rights, Queenside, White, A1)
    && CastleBlock(m, rights, Kingside, Black, H8)
    && CastleBlock(m, rights, Kingside, Black, A8)
  }

  /// The four castling blocks as intended: each right against its own rook.
  predicate CastleChecks(m: Mailbox, rights: CastlingRights)
  {
    CastleBlock(m, rights, Kingside, White, H1)
    && CastleBlock(m, rights, Queenside, White, A1)
    && CastleBlock(m, rights, Kingside, Black, H8)
    && CastleBlock(m, rights, Queenside, Black, A8)
  }

  /// The board literal `from_builder` fills in: the builder's boards, rights,
  /// turn and hash, no en-passant square, no pins or checkers, clock 0.
  function Converted(b: BoardBuilder): (p: Position)
    requires BoardBuilders.WellFormed(b) && b.turn.Some?
    ensures Positions.WellFormed(p) && p.turn == b.turn.value && p.enPassant.None?
    ensures p.pieceBbs == b.pieceBbs && p.colorBbs == b.colorBbs && p.castlingRights == b.castlingRights
    ensures p.hash == b.hash && p.halfMoveClock == 0 && p.pinned == EMPTY && p.checkers == EMPTY
  {
    Position(b.pieceBbs, b.colorBbs, b.castlingRights, None, b.turn.value, EMPTY, EMPTY, b.hash, 0)
  }

  /// The king board holding two kings of a valid builder means one king of
  /// each color, since no color holds two.
  lemma {:induction false} BothKings(b: BoardBuilder)
    requires BoardBuilders.Valid(b)
    requires Popcnt(b.pieceBbs[Pieces.Index(King)]) == 2
    ensures |KingsOf(b, White)| == 1 && |KingsOf(b, Black)| == 1
  {
    var kings := b.pieceBbs[Pieces.Index(King)];
    assert kings == KingsOf(b, White) + KingsOf(b, Black) by {
      forall s: Square | s in kings ensures s in KingsOf(b, White) + KingsOf(b, Black) {
        assert b.pieceMap[s].Some?;
        if b.pieceMap[s].value.color == White {
          assert s in b.colorBbs[Colors.Index(White)];
        } else {
          assert s in b.colorBbs[Colors.Index(Black)];
        }
      }
    }
    assert |KingsOf(b, White)| <= 1 && |KingsOf(b, Black)| <= 1;
  }

  /// The checks made on the builder itself, in source order: piece counts,
  /// turn, kings, en-passant square, castling rights.
  function Screen(b: BoardBuilder): (r: Option<BuilderConversionError>)
    requires BoardBuilders.Valid(b)
    ensures r.None? <==>
      (!Overfull(b) && b.turn.Some? && Popcnt(b.pieceBbs[Pieces.Index(King)]) == 2
       && EnPassantFits(b.pieceMap, b.enPassantSquare, b.turn.value)
       && CastleChecksAsWritten(b.pieceMap, b.castlingRights))
    ensures r.None? ==> |KingsOf(b, White)| == 1 && |KingsOf(b, Black)| == 1
    ensures r == Some(TooManyPieces) <==> Overfull(b)
    ensures r == Some(TurnNotSet) <==> !Overfull(b) && b.turn.None?
  {
    if Overfull(b) then Some(TooManyPieces)
    else if b.turn.None? then Some(TurnNotSet)
    else if Popcnt(b.pieceBbs[Pieces.Index(King)]) != 2 then Some(MissingKing)
    else if !EnPassantFits(b.pieceMap, b.enPassantSquare, b.turn.value) then Some(InvalidEnPassant)
    else if !CastleChecksAsWritten(b.pieceMap, b.castlingRights) then Some(InvalidCastleRight)
    else BothKings(b); None
  }

  /// A builder that passes the screen converts to a board with a king of
  /// each color.
  lemma ScreenedKings(b: BoardBuilder)
    requires BoardBuilders.Valid(b) && Screen(b).None?
    ensures Query(Converted(b), King, White) != EMPTY && Query(Converted(b), King, Black) != EMPTY
  {
    assert Query(Converted(b), King, White) == KingsOf(b, White);
    assert Query(Converted(b), King, Black) == KingsOf(b, Black);
  }

  /// The last check, on the board literal: the king of the side not to move
  /// is attacked by the side to move.
  ghost predicate OpponentInCheck(b: BoardBuilder)
    requires BoardBuilders.Valid(b) && Screen(b).None?
  {
    var p := Converted(b);
    ScreenedKings(b);
    AttackedBy(p, KingSquare(p, Opposite(p.turn)), p.turn)
  }

  /// The reason `from_builder` refuses the builder, or None when it
  /// accepts it.
  ghost function Rejection(b: BoardBuilder): (r: Option<BuilderConversionError>)
    requires BoardBuilders.Valid(b)
    ensures r.None? ==> Screen(b).None? && !OpponentInCheck(b)
    ensures r == Some(InactiveKingAttacked) <==> Screen(b).None? && OpponentInCheck(b)
  {
    if Screen(b).Some? then Screen(b)
    else if OpponentInCheck(b) then Some(InactiveKingAttacked)
    else None
  }

  /// The en-passant block of `from_builder`.
  method CheckEnPassant(b: BoardBuilder, turn: Color) returns (ok: bool)
    requires BoardBuilders.WellFormed(b)
    ensures ok == EnPassantFits(b.pieceMap, b.enPassantSquare, turn)
  {
    if b.enPassantSquare.Some? {
      var sq := b.enPassantSquare.value;
      match turn
      case White =>
        if Rank(sq) != Ranks.Sixth {
          return false;
        }
        if b.pieceMap[Squares.Down(sq).value] != Some(ColoredPiece(Pawn, Black)) {
          return false;
        }
      case Black =>
        if Rank(sq) != Ranks.Third {
          return false;
        }
        if b.pieceMap[Squares.Up(sq).value] != Some(ColoredPiece(Pawn, White)) {
          return false;
        }
    }
    return true;
  }

  /// The four castling blocks of `from_builder`.
  method CheckCastleRights(b: BoardBuilder) returns (ok: bool)
    requires BoardBuilders.WellFormed(b)
    ensures ok == CastleChecksAsWritten(b.pieceMap, b.castlingRights)
  {
    if IsSet(b.castlingRights, Kingside, White) {
      if b.pieceMap[E1] != Some(ColoredPiece(King, White)) || b.pieceMap[H1] != Some(ColoredPiece(Rook, White)) {
        return false;
      }
    }
    if IsSet(b.castlingRights, Queenside, White) {
      if b.pieceMap[E1] != Some(ColoredPiece(King, White)) || b.pieceMap[A1] != Some(ColoredPiece(Rook, White)) {
        return false;
      }
    }
    if IsSet(b.castlingRights, Kingside, Black) {
      if b.pieceMap[E8] != Some(ColoredPiece(King, Black)) || b.pieceMap[H8] != Some(ColoredPiece(Rook, Black)) {
        return false;
      }
    }
    if IsSet(b.castlingRights, Kingside, Black) {
      if b.pieceMap[E8] != Some(ColoredPiece(King, Black)) || b.pieceMap[A8] != Some(ColoredPiece(Rook, Black)) {
        return false;
      }
    }
    return true;
  }

  /// The checks on the builder, returning the first failure.
  method ScreenBuilder(b: BoardBuilder) returns (e: Option<BuilderConversionError>)
    requires BoardBuilders.Valid(b)
    ensures e == Screen(b)
  {
    if Popcnt(b.colorBbs[Colors.Index(White)]) > 18 {
      return Some(TooManyPieces);
    }
    if Popcnt(b.colorBbs[Colors.Index(Black)]) > 18 {
      return Some(TooManyPieces);
    }
    if b.turn.None? {
      return Some(TurnNotSet);
    }
    if Popcnt(b.pieceBbs[Pieces.Index(King)]) != 2 {
      return Some(MissingKing);
    }
    var epOk := CheckEnPassant(b, b.turn.value);
    if !epOk {
      return Some(InvalidEnPassant);
    }
    var castleOk := CheckCastleRights(b);
    if !castleOk {
      return Some(InvalidCastleRight);
    }
    return None;
  }

  /// `from_builder`: the checks on the builder, then the board literal, the
  /// test that the side not to move is not in check, and the pin and check
  /// scans. The builder is one the builder methods produced.
  method FromBuilder(b: BoardBuilder, tables: CT.Build) returns (r: Result<ChessBoard, BuilderConversionError>)
    requires BoardBuilders.Valid(b) && CT.Ready(tables)
    ensures r.Err? <==> Rejection(b).Some?
    ensures r.Err? ==> r.error == Rejection(b).value
    ensures r.Ok? ==> fresh(r.value) && r.value.Valid() && r.value.tables == tables
    ensures r.Ok? ==> r.value.State() == WithExtraData(Converted(b))
  {
    var e := ScreenBuilder(b);
    if e.Some? {
      return Err(e.value);
    }
    var p := Converted(b);
    var board := new ChessBoard(p, tables);
    ScreenedKings(b);
    var king := KingSquare(board.State(), Opposite(board.turn));
    if IsAttacked(tables, board.State(), king, board.turn) {
      assert OpponentInCheck(b);
      return Err(InactiveKingAttacked);
    }
    assert !OpponentInCheck(b);
    board.CalculateExtraData();
    return Ok(board);
  }

  /// A builder without an en-passant square converts to a sound board: the
  /// boards match the builder's square map, the hash is the position's hash
  /// and the rights are a valid byte.
  lemma ConvertedSound(b: BoardBuilder)
    requires BoardBuilders.Valid(b) && b.turn.Some? && b.enPassantSquare.None?
    ensures Sound(Converted(b), b.pieceMap)
  {
  }

  /// With an en-passant square, the converted board is not hashed: the
  /// builder's hash carries that file's key while the board has no
  /// en-passant square.
  lemma ConvertedDropsEp(b: BoardBuilder)
    requires BoardBuilders.Valid(b) && b.turn.Some? && b.enPassantSquare.Some?
    ensures !Hashed(Converted(b))
  {
    var k := Z.EpKey(File(b.enPassantSquare.value));
    assert k in b.hash.toggled;
    assert !Z.Present(k, b.pieceBbs, b.colorBbs, b.turn == Some(Black), b.castlingRights, None);
  }

  /// The board literal as intended: it keeps the builder's en-passant square.
  function ConvertedKeepingEp(b: BoardBuilder): (p: Position)
    requires BoardBuilders.WellFormed(b) && b.turn.Some?
    ensures Positions.WellFormed(p) && p.enPassant == b.enPassantSquare
    ensures p == Converted(b).(enPassant := b.enPassantSquare)
  {
    Position(b.pieceBbs, b.colorBbs, b.castlingRights, b.enPassantSquare, b.turn.value, EMPTY, EMPTY, b.hash, 0)
  }

  /// Every valid builder with a turn converts to a sound board once the
  /// en-passant square is kept.
  lemma ConvertedKeepingEpSound(b: BoardBuilder)
    requires BoardBuilders.Valid(b) && b.turn.Some?
    ensures Sound(ConvertedKeepingEp(b), b.pieceMap)
  {
  }

  /// The castling blocks as written accept a black queenside right with no
  /// rook (nor king) behind it, and refuse a backed black kingside right
  /// when A8 is empty.
  lemma CastleChecksAsWrittenWrong()
    ensures var m: Mailbox := seq(64, _ => None);
      var queenside := Castling.Set(Castling.New(), Queenside, Black);
      CastleChecksAsWritten(m, queenside) && !RightsBacked(m, queenside)
    ensures var m: Mailbox := seq(64, s => if s == E8 then Some(ColoredPiece(King, Black))
                                         else if s == H8 then Some(ColoredPiece(Rook, Black)) else None);
      var kingside := Castling.Set(Castling.New(), Kingside, Black);
      !CastleChecksAsWritten(m, kingside) && RightsBacked(m, kingside)
  {
    var m: Mailbox := seq(64, _ => None);
    var queenside := Castling.Set(Castling.New(), Queenside, Black);
    assert !IsSet(queenside, Kingside, White) && !IsSet(queenside, Queenside, White);
    assert !IsSet(queenside, Kingside, Black);
    assert m[A8] == None;
    var m2: Mailbox := seq(64, s => if s == E8 then Some(ColoredPiece(King, Black))
                                   else if s == H8 then Some(ColoredPiece(Rook, Black)) else None);
    var kingside := Castling.Set(Castling.New(), Kingside, Black);
    assert m2[A8] == None && m2[E8] == Some(ColoredPiece(King, Black)) && m2[H8] == Some(ColoredPiece(Rook, Black));
    forall side: CastleSide, color: Color | IsSet(kingside, side, color)
      ensures m2[KingHome(color)] == Some(ColoredPiece(King, color))
      ensures m2[RookHome(color, side)] == Some(ColoredPiece(Rook, color))
    {
      assert side == Kingside && color == Black;
    }
  }

  /// The intended castling blocks accept exactly the rights whose king and
  /// rook stand at home, the invariant every move keeps
  /// (`MakeMove.PlayKeepsRightsBacked`).
  lemma {:induction false} CastleChecksMeaning(m: Mailbox, rights: CastlingRights)
    ensures CastleChecks(m, rights) <==> RightsBacked(m, rights)
  {
    if CastleChecks(m, rights) {
      forall side: CastleSide, color: Color | IsSet(rights, side, color)
        ensures m[KingHome(color)] == Some(ColoredPiece(King, color))
        ensures m[RookHome(color, side)] == Some(ColoredPiece(Rook, color))
      {
        match (color, side)
        case (White, Kingside) => assert CastleBlock(m, rights, Kingside, White, H1);
        case (White, Queenside) => assert CastleBlock(m, rights, Queenside, White, A1);
        case (Black, Kingside) => assert CastleBlock(m, rights, Kingside, Black, H8);
        case (Black, Queenside) => assert CastleBlock(m, rights, Queenside, Black, A8);
      }
    }
    if RightsBacked(m, rights) {
      assert RookHome(White, Kingside) == H1 && RookHome(White, Queenside) == A1;
      assert RookHome(Black, Kingside) == H8 && RookHome(Black, Queenside) == A8;
    }
  }
}
