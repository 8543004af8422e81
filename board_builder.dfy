// The board builder (src/chessboard/builder.rs): a position assembled piece
// by piece, each step checked. Every builder method takes the builder by
// value and hands it back on success, so each is modelled as a function from
// the old builder to the new one or to the error it reports.
module BoardBuilders {
  import opened Wrappers
  import opened Squares
  import opened BitBoards
  import opened Colors
  import opened Pieces
  import opened Castling
  import opened Zobrist
  import Ranks

  datatype BoardBuilderError =
    | TwoKings
    | PawnOnLast
    | TwoPieces
    | TurnAlreadySet
    | CastleRightAlreadySet
    | EnPassantAlreadySet

  /// The builder's fields: a square-indexed map of pieces next to the same
  /// placement as six piece boards and two color boards, the optional turn,
  /// the rights, the optional en-passant square and the running hash.
  datatype BoardBuilder = BoardBuilder(
    pieceMap: seq<Option<ColoredPiece>>,
    pieceBbs: seq<BitBoard>,
    colorBbs: seq<BitBoard>,
    turn: Option<Color>,
    castlingRights: CastlingRights,
    enPassantSquare: Option<Square>,
    hash: ZobristHash)

  /// The fixed array lengths of the Rust struct.
  predicate WellFormed(b: BoardBuilder)
  {
    |b.pieceMap| == 64 && |b.pieceBbs| == 6 && |b.colorBbs| == 2
  }

  /// The square map and the boards describe the same placement.
  ghost predicate Consistent(b: BoardBuilder)
    requires WellFormed(b)
  {
    (forall s: Square, k: PieceType ::
       s in b.pieceBbs[Pieces.Index(k)] <==> b.pieceMap[s].Some? && b.pieceMap[s].value.kind == k)
    && (forall s: Square, c: Color ::
          s in b.colorBbs[Colors.Index(c)] <==> b.pieceMap[s].Some? && b.pieceMap[s].value.color == c)
  }

  /// The kings of one color.
  function KingsOf(b: BoardBuilder, color: Color): BitBoard
    requires WellFormed(b)
  {
    b.pieceBbs[Pieces.Index(King)] * b.colorBbs[Colors.Index(color)]
  }

  /// A pawn of that color may not stand on that square: rank 8 for White,
  /// rank 1 for Black.
  predicate PawnOnLastRank(kind: PieceType, color: Color, square: Square)
  {
    kind == Pawn
    && ((color == White && Rank(square) == Ranks.Eighth) || (color == Black && Rank(square) == Ranks.First))
  }

  /// What every builder the methods produce satisfies: a consistent
  /// placement with at most one king per color and no pawn on its last
  /// rank, rights made of the four flags, and the hash of what was set.
  ghost predicate Valid(b: BoardBuilder)
  {
    WellFormed(b) && Consistent(b) && Castling.Valid(b.castlingRights)
    && (forall c :: |KingsOf(b, c)| <= 1)
    && (forall s: Square :: b.pieceMap[s].Some? ==>
          !PawnOnLastRank(b.pieceMap[s].value.kind, b.pieceMap[s].value.color, s))
    && Describes(b.hash, b.pieceBbs, b.colorBbs, b.turn == Some(Black), b.castlingRights, b.enPassantSquare)
  }

  /// `new`: an empty board with nothing set.
  function New(): (b: BoardBuilder)
    ensures Valid(b)
    ensures forall s: Square :: b.pieceMap[s].None?
    ensures b.turn.None? && b.enPassantSquare.None? && IsNoneSet(b.castlingRights)
  {
    var r := BoardBuilder(seq(64, _ => None), seq(6, _ => EMPTY), seq(2, _ => EMPTY),
                          None, Castling.New(), None, Zobrist.New());
    assert forall c :: KingsOf(r, c) == EMPTY;
    r
  }

  /// `piece`: places a piece. A second king of a color is refused first,
  /// then a pawn on its last rank, then an occupied square; otherwise the
  /// map, the piece board and the color board gain the square and the hash
  /// gains the piece.
  function Piece(b: BoardBuilder, square: Square, kind: PieceType, color: Color): (r: Result<BoardBuilder, BoardBuilderError>)
    requires WellFormed(b)
    ensures r == Err(TwoKings) <==> kind == King && KingsOf(b, color) != EMPTY
    ensures r == Err(PawnOnLast) <==> PawnOnLastRank(kind, color, square)
    ensures r == Err(TwoPieces) <==>
      !(kind == King && KingsOf(b, color) != EMPTY) && !PawnOnLastRank(kind, color, square) && b.pieceMap[square].Some?
    ensures r.Ok? ==>
      var n := r.value;
      WellFormed(n)
      && n.pieceMap[square] == Some(ColoredPiece(kind, color))
      && (forall t: Square :: t != square ==> n.pieceMap[t] == b.pieceMap[t])
      && (forall t: Square, k: PieceType ::
            t in n.pieceBbs[Pieces.Index(k)] <==> t in b.pieceBbs[Pieces.Index(k)] || (t == square && k == kind))
      && (forall t: Square, c: Color ::
            t in n.colorBbs[Colors.Index(c)] <==> t in b.colorBbs[Colors.Index(c)] || (t == square && c == color))
      && FlipsOnly(b.hash, n.hash, PieceKey(color, kind, square))
      && n.turn == b.turn && n.castlingRights == b.castlingRights && n.enPassantSquare == b.enPassantSquare
  {
    if kind == King && !IsEmpty(b.pieceBbs[Pieces.Index(King)] * b.colorBbs[Colors.Index(color)]) then
      Err(TwoKings)
    else if kind == Pawn && color == White && Rank(square) == Ranks.Eighth then
      Err(PawnOnLast)
    else if kind == Pawn && color == Black && Rank(square) == Ranks.First then
      Err(PawnOnLast)
    else if b.pieceMap[square].Some? then
      Err(TwoPieces)
    else
      var pi := Pieces.Index(kind);
      var ci := Colors.Index(color);
      Ok(b.(pieceMap := b.pieceMap[square := Some(ColoredPiece(kind, color))],
            pieceBbs := b.pieceBbs[pi := b.pieceBbs[pi] + FromSquare(square)],
            colorBbs := b.colorBbs[ci := b.colorBbs[ci] + FromSquare(square)],
            hash := Zobrist.Piece(b.hash, square, kind, color)))
  }

  /// `turn`: sets the side to move once; Black's turn also XORs the turn key.
  function Turn(b: BoardBuilder, color: Color): (r: Result<BoardBuilder, BoardBuilderError>)
    ensures r.Err? <==> b.turn.Some?
    ensures r.Err? ==> r.error == TurnAlreadySet
    ensures r.Ok? ==> r.value.turn == Some(color)
    ensures r.Ok? && color == Black ==> FlipsOnly(b.hash, r.value.hash, TurnKey)
    ensures r.Ok? && color == White ==> r.value.hash == b.hash
    ensures r.Ok? ==> r.value.(turn := b.turn, hash := b.hash) == b
  {
    if b.turn.Some? then
      Err(TurnAlreadySet)
    else
      var h := if color == Black then ToggleTurn(b.hash) else b.hash;
      Ok(b.(turn := Some(color), hash := h))
  }

  /// `castle_right`: grants a right once, adding its key to the hash.
  function CastleRight(b: BoardBuilder, side: CastleSide, color: Color): (r: Result<BoardBuilder, BoardBuilderError>)
    ensures r.Err? <==> IsSet(b.castlingRights, side, color)
    ensures r.Err? ==> r.error == CastleRightAlreadySet
    ensures r.Ok? ==> IsSet(r.value.castlingRights, side, color)
    ensures r.Ok? ==> forall s, c :: (s, c) != (side, color) ==>
      IsSet(r.value.castlingRights, s, c) == IsSet(b.castlingRights, s, c)
    ensures r.Ok? ==> FlipsOnly(b.hash, r.value.hash, CastleKey(side, color))
    ensures r.Ok? ==> r.value.(castlingRights := b.castlingRights, hash := b.hash) == b
  {
    if IsSet(b.castlingRights, side, color) then
      Err(CastleRightAlreadySet)
    else
      Ok(b.(castlingRights := Set(b.castlingRights, side, color),
            hash := Zobrist.CastleRight(b.hash, side, color)))
  }

  /// `en_passant`: sets the en-passant square once, adding its file's key.
  function EnPassant(b: BoardBuilder, square: Square): (r: Result<BoardBuilder, BoardBuilderError>)
    ensures r.Err? <==> b.enPassantSquare.Some?
    ensures r.Err? ==> r.error == EnPassantAlreadySet
    ensures r.Ok? ==> r.value.enPassantSquare == Some(square)
    ensures r.Ok? ==> FlipsOnly(b.hash, r.value.hash, EpKey(File(square)))
    ensures r.Ok? ==> r.value.(enPassantSquare := b.enPassantSquare, hash := b.hash) == b
  {
    if b.enPassantSquare.Some? then
      Err(EnPassantAlreadySet)
    else
      Ok(b.(enPassantSquare := Some(square), hash := Zobrist.Ep(b.hash, square)))
  }

  /// Placing a piece keeps the builder valid: in particular no color ever
  /// has two kings and no pawn ever stands on its last rank.
  lemma PiecePreservesValid(b: BoardBuilder, square: Square, kind: PieceType, color: Color)
    requires Valid(b)
    ensures Piece(b, square, kind, color).Ok? ==> Valid(Piece(b, square, kind, color).value)
  {
    var r := Piece(b, square, kind, color);
    if r.Ok? {
      var n := r.value;
      assert Consistent(n);
      forall c ensures |KingsOf(n, c)| <= 1 {
        if kind == King && c == color {
          assert KingsOf(b, c) == EMPTY;
          assert KingsOf(n, c) == {square};
        } else {
          assert KingsOf(n, c) == KingsOf(b, c);
        }
      }
      assert Describes(n.hash, n.pieceBbs, n.colorBbs, n.turn == Some(Black), n.castlingRights, n.enPassantSquare) by {
        forall k ensures k in n.hash.toggled <==>
          Present(k, n.pieceBbs, n.colorBbs, n.turn == Some(Black), n.castlingRights, n.enPassantSquare)
        {
          assert Present(k, n.pieceBbs, n.colorBbs, n.turn == Some(Black), n.castlingRights, n.enPassantSquare)
             <==> (Present(k, b.pieceBbs, b.colorBbs, b.turn == Some(Black), b.castlingRights, b.enPassantSquare)
                   != (k == PieceKey(color, kind, square)));
        }
      }
    }
  }

  /// Setting the turn keeps the builder valid.
  lemma TurnPreservesValid(b: BoardBuilder, color: Color)
    requires Valid(b)
    ensures Turn(b, color).Ok? ==> Valid(Turn(b, color).value)
  {
    var r := Turn(b, color);
    if r.Ok? {
      var n := r.value;
      assert KingsOf(n, White) == KingsOf(b, White) && KingsOf(n, Black) == KingsOf(b, Black);
      assert Describes(n.hash, n.pieceBbs, n.colorBbs, n.turn == Some(Black), n.castlingRights, n.enPassantSquare) by {
        forall k ensures k in n.hash.toggled <==>
          Present(k, n.pieceBbs, n.colorBbs, n.turn == Some(Black), n.castlingRights, n.enPassantSquare)
        {
          assert Present(k, n.pieceBbs, n.colorBbs, n.turn == Some(Black), n.castlingRights, n.enPassantSquare)
             <==> (Present(k, b.pieceBbs, b.colorBbs, b.turn == Some(Black), b.castlingRights, b.enPassantSquare)
                   != (k == TurnKey && color == Black));
        }
      }
    }
  }

  /// Granting a castling right keeps the builder valid.
  lemma CastleRightPreservesValid(b: BoardBuilder, side: CastleSide, color: Color)
    requires Valid(b)
    ensures CastleRight(b, side, color).Ok? ==> Valid(CastleRight(b, side, color).value)
  {
    var r := CastleRight(b, side, color);
    if r.Ok? {
      var n := r.value;
      assert KingsOf(n, White) == KingsOf(b, White) && KingsOf(n, Black) == KingsOf(b, Black);
      assert Describes(n.hash, n.pieceBbs, n.colorBbs, n.turn == Some(Black), n.castlingRights, n.enPassantSquare) by {
        forall k ensures k in n.hash.toggled <==>
          Present(k, n.pieceBbs, n.colorBbs, n.turn == Some(Black), n.castlingRights, n.enPassantSquare)
        {
          assert Present(k, n.pieceBbs, n.colorBbs, n.turn == Some(Black), n.castlingRights, n.enPassantSquare)
             <==> (Present(k, b.pieceBbs, b.colorBbs, b.turn == Some(Black), b.castlingRights, b.enPassantSquare)
                   != (k == CastleKey(side, color)));
        }
      }
    }
  }

  /// Setting the en-passant square keeps the builder valid.
  lemma EnPassantPreservesValid(b: BoardBuilder, square: Square)
    requires Valid(b)
    ensures EnPassant(b, square).Ok? ==> Valid(EnPassant(b, square).value)
  {
    var r := EnPassant(b, square);
    if r.Ok? {
      var n := r.value;
      assert KingsOf(n, White) == KingsOf(b, White) && KingsOf(n, Black) == KingsOf(b, Black);
      assert Describes(n.hash, n.pieceBbs, n.colorBbs, n.turn == Some(Black), n.castlingRights, n.enPassantSquare) by {
        forall k ensures k in n.hash.toggled <==>
          Present(k, n.pieceBbs, n.colorBbs, n.turn == Some(Black), n.castlingRights, n.enPassantSquare)
        {
          assert Present(k, n.pieceBbs, n.colorBbs, n.turn == Some(Black), n.castlingRights, n.enPassantSquare)
             <==> (Present(k, b.pieceBbs, b.colorBbs, b.turn == Some(Black), b.castlingRights, b.enPassantSquare)
                   != (k == EpKey(File(square))));
        }
      }
    }
  }
}
