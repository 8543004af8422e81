// Writing a board as FEN (`ChessBoard::get_fen` in
// src/chessboard/chessboard.rs): the piece section rank by rank from the
// eighth, runs of empty squares as a digit; then the side to move, the
// castling letters and the en-passant square. No clock is written.
module FenWriter {
  import opened Wrappers
  import opened Squares
  import opened BitBoards
  import opened Colors
  import opened Pieces
  import opened Castling
  import opened Positions
  import opened ChessBoards
  import opened Fen

  /// A run of empty squares: nothing for none, else its digit.
  function GapText(gap: nat): (s: string)
    requires gap <= 8
    ensures gap == 0 ==> s == []
    ensures gap > 0 ==> s == [('0' as int + gap) as char]
  {
    if gap == 0 then [] else Decimal(gap)
  }

  /// The piece section from `file` of `rank` on, with `gap` empty squares
  /// already passed and not yet written: an empty square lengthens the
  /// gap, a piece writes the gap's digit and its letter, and after file H
  /// the gap's digit and, above the first rank, a `/` come before the rank
  /// below.
  function PieceText(p: Position, rank: nat, file: nat, gap: nat): string
    requires Positions.WellFormed(p) && rank < 8 && file <= 8 && gap <= file
    decreases rank, 8 - file
  {
    if file == 8 then GapText(gap) + (if rank == 0 then [] else "/" + PieceText(p, rank - 1, 0, 0))
    else match PieceAt(p, rank * 8 + file)
      case None => PieceText(p, rank, file + 1, gap + 1)
      case Some(piece) => GapText(gap) + ([PieceToChar(piece)] + PieceText(p, rank, file + 1, 0))
  }

  /// What follows file H of `rank`: nothing after the first rank, else `/`
  /// and the ranks below.
  function Below(p: Position, rank: nat): string
    requires Positions.WellFormed(p) && rank < 8
  {
    if rank == 0 then [] else "/" + PieceText(p, rank - 1, 0, 0)
  }

  /// The text of `rank` alone from `file` on, with `gap` empty squares
  /// pending.
  function RankText(p: Position, rank: nat, file: nat, gap: nat): string
    requires Positions.WellFormed(p) && rank < 8 && file <= 8 && gap <= file
    decreases 8 - file
  {
    if file == 8 then GapText(gap)
    else match PieceAt(p, rank * 8 + file)
      case None => RankText(p, rank, file + 1, gap + 1)
      case Some(piece) => GapText(gap) + [PieceToChar(piece)] + RankText(p, rank, file + 1, 0)
  }

  /// Within a rank the piece section is the rank's own text, then what
  /// follows the rank.
  lemma {:induction false} RankSplits(p: Position, rank: nat, file: nat, gap: nat)
    requires Positions.WellFormed(p) && rank < 8 && file <= 8 && gap <= file
    ensures PieceText(p, rank, file, gap) == RankText(p, rank, file, gap) + Below(p, rank)
    decreases 8 - file
  {
    if file < 8 {
      match PieceAt(p, rank * 8 + file)
      case None =>
        RankSplits(p, rank, file + 1, gap + 1);
      case Some(piece) =>
        RankSplits(p, rank, file + 1, 0);
        var g, c := GapText(gap), [PieceToChar(piece)];
        SeqAssoc(g + c, RankText(p, rank, file + 1, 0), Below(p, rank));
        SeqAssoc(g, c, RankText(p, rank, file + 1, 0) + Below(p, rank));
    }
  }

  /// The castling field: `-` when no right is set, else the letters of the
  /// set rights in the order K, Q, k, q.
  function CastleText(rights: CastlingRights): string
  {
    if IsNoneSet(rights) then "-"
    else
      (if IsSet(rights, Kingside, White) then "K" else [])
      + (if IsSet(rights, Queenside, White) then "Q" else [])
      + (if IsSet(rights, Kingside, Black) then "k" else [])
      + (if IsSet(rights, Queenside, Black) then "q" else [])
  }

  /// The en-passant field: `-` or the square's name.
  function EpText(ep: Option<Square>): (s: string)
    ensures s != []
  {
    match ep
    case None => "-"
    case Some(square) => Squares.ToString(square)
  }

  /// The four fields `get_fen` writes.
  function FenFields(p: Position): (fields: seq<string>)
    requires Positions.WellFormed(p)
  {
    [PieceText(p, 7, 0, 0), [Colors.ToChar(p.turn)], CastleText(p.castlingRights), EpText(p.enPassant)]
  }

  /// The FEN string of a board: its four fields joined by spaces.
  function FenString(p: Position): string
    requires Positions.WellFormed(p)
  {
    Join(FenFields(p))
  }

  /// The castling field of `get_fen`.
  method WriteCastleRights(rights: CastlingRights) returns (text: string)
    ensures text == CastleText(rights)
  {
    if IsNoneSet(rights) {
      return "-";
    }
    text := [];
    if IsSet(rights, Kingside, White) {
      text := text + "K";
    }
    if IsSet(rights, Queenside, White) {
      text := text + "Q";
    }
    if IsSet(rights, Kingside, Black) {
      text := text + "k";
    }
    if IsSet(rights, Queenside, Black) {
      text := text + "q";
    }
  }

  /// The separator written after a rank: `/` after every rank but the first.
  function Separator(rank: nat): string
  {
    if rank == 0 then [] else "/"
  }

  /// One rank of the piece section of `get_fen`: an empty square lengthens
  /// the gap, a piece flushes the gap and writes its letter; on file H the
  /// gap is flushed and, above the first rank, a `/` is written.
  method WriteRank(p: Position, rank: nat) returns (text: string)
    requires Positions.WellFormed(p) && rank < 8
    ensures text == RankText(p, rank, 0, 0) + Separator(rank)
  {
    text := [];
    var gap: nat := 0;
    for file := 0 to 8
      invariant gap <= file
      invariant text + RankText(p, rank, file, gap) == RankText(p, rank, 0, 0)
    {
      ghost var before, pending := text, gap;
      match PieceAt(p, rank * 8 + file)
      case None =>
        gap := gap + 1;
      case Some(piece) =>
        if gap != 0 {
          text := text + Decimal(gap);
          gap := 0;
        }
        text := text + [PieceToChar(piece)];
        assert text == before + (GapText(pending) + [PieceToChar(piece)]);
        SeqAssoc(before, GapText(pending) + [PieceToChar(piece)], RankText(p, rank, file + 1, 0));
    }
    if gap != 0 {
      text := text + Decimal(gap);
    }
    if rank != 0 {
      text := text + "/";
    }
  }

  /// `pieces` is the piece section `whole` up to the start of `rank`, all
  /// of it once `rank` is below the first.
  predicate Remaining(p: Position, pieces: string, rank: int, whole: string)
    requires Positions.WellFormed(p) && rank < 8
  {
    if rank >= 0 then pieces + PieceText(p, rank, 0, 0) == whole else pieces == whole
  }

  /// After the text of `rank` only the ranks below remain to be written.
  lemma RankWritten(pieces: string, written: string, p: Position, rank: nat, whole: string)
    requires Positions.WellFormed(p) && rank < 8
    requires Remaining(p, pieces, rank, whole)
    requires written == RankText(p, rank, 0, 0) + Separator(rank)
    ensures Remaining(p, pieces + written, rank - 1, whole)
  {
    RankSplits(p, rank, 0, 0);
    var below := if rank == 0 then [] else PieceText(p, rank - 1, 0, 0);
    assert Below(p, rank) == Separator(rank) + below;
    SeqAssoc(RankText(p, rank, 0, 0), Separator(rank), below);
    SeqAssoc(pieces, written, below);
  }

  /// The piece section of `get_fen`: the ranks from the eighth down, the
  /// files of each from A to H.
  method WritePieces(p: Position) returns (pieces: string)
    requires Positions.WellFormed(p)
    ensures pieces == PieceText(p, 7, 0, 0)
  {
    ghost var whole := PieceText(p, 7, 0, 0);
    pieces := [];
    var rank: int := 7;
    while rank >= 0
      invariant -1 <= rank <= 7
      invariant Remaining(p, pieces, rank, whole)
    {
      var written := WriteRank(p, rank);
      RankWritten(pieces, written, p, rank, whole);
      pieces := pieces + written;
      rank := rank - 1;
    }
  }

  /// `get_fen`: the piece section, then the side to move, the castling
  /// letters and the en-passant square.
  method GetFen(board: ChessBoard) returns (fen: string)
    requires board.Valid()
    ensures fen == FenString(board.State())
  {
    var p := board.State();
    var pieces := WritePieces(p);
    var castleRights := WriteCastleRights(p.castlingRights);
    var ep := match p.enPassant case None => "-" case Some(square) => Squares.ToString(square);
    fen := pieces + " " + [Colors.ToChar(p.turn)] + " " + castleRights + " " + ep;
    JoinFour(pieces, [Colors.ToChar(p.turn)], castleRights, ep);
  }
}
