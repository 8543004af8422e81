// Loading a board from a FEN string (`ChessBoard::from_fen` in
// src/chessboard/chessboard.rs). The string is split at whitespace; the
// first four fields feed a board builder section by section, the builder is
// converted, and an optional fifth field sets the half-move clock.
module Fen {
  import opened Wrappers
  import opened Squares
  import opened BitBoards
  import opened Colors
  import opened Pieces
  import opened Castling
  import opened Positions
  import opened BoardBuilders
  import opened BuilderConversion
  import opened ChessBoards
  import CT = ChessboardTables

  datatype FenFormatError =
    | InvalidPieceSection
    | MissingPieceSection
    | InvalidTurnSection
    | MissingTurnSection
    | InvalidCastleRights
    | MissingCastleRights
    | InvalidEnPassant
    | MissingEnPassant
    | InvalidHalfMoveSection

  datatype FenLoadError =
    | Formatting(format: FenFormatError)
    | Builder(builder: BoardBuilderError)
    | Conversion(conversion: BuilderConversionError)

  /// `char::is_whitespace`: the characters with the Unicode White_Space
  /// property.
  predicate IsWhitespace(c: char)
  {
    ('\t' <= c <= '\r') || c == ' ' || c == '\U{85}' || c == '\U{A0}' || c == '\U{1680}'
    || ('\U{2000}' <= c <= '\U{200A}') || c == '\U{2028}' || c == '\U{2029}'
    || c == '\U{202F}' || c == '\U{205F}' || c == '\U{3000}'
  }

  /// A field of a split string: non-empty and free of whitespace.
  predicate Word(w: string)
  {
    w != [] && forall i :: 0 <= i < |w| ==> !IsWhitespace(w[i])
  }

  /// The length of the whitespace run the string starts with.
  function SpaceRun(s: string): (n: nat)
    ensures n <= |s|
    ensures forall i :: 0 <= i < n ==> IsWhitespace(s[i])
    ensures n < |s| ==> !IsWhitespace(s[n])
  {
    if s == [] || !IsWhitespace(s[0]) then 0 else 1 + SpaceRun(s[1..])
  }

  /// The length of the non-whitespace run the string starts with.
  function WordRun(s: string): (n: nat)
    ensures n <= |s|
    ensures forall i :: 0 <= i < n ==> !IsWhitespace(s[i])
    ensures n < |s| ==> IsWhitespace(s[n])
  {
    if s == [] || IsWhitespace(s[0]) then 0 else 1 + WordRun(s[1..])
  }

  /// `split_whitespace`: the maximal whitespace-free runs, in order.
  function Words(s: string): (ws: seq<string>)
    ensures forall i :: 0 <= i < |ws| ==> Word(ws[i])
    decreases |s|
  {
    var t := s[SpaceRun(s)..];
    if t == [] then []
    else
      var n := WordRun(t);
      [t[..n]] + Words(t[n..])
  }

  /// Fields joined by single spaces, the way a FEN string is written.
  function Join(ws: seq<string>): string
  {
    if ws == [] then []
    else if |ws| == 1 then ws[0]
    else ws[0] + " " + Join(ws[1..])
  }

  /// Four fields joined.
  lemma JoinFour(a: string, b: string, c: string, d: string)
    ensures Join([a, b, c, d]) == a + " " + b + " " + c + " " + d
  {
    assert [a, b, c, d][1..] == [b, c, d];
    assert [b, c, d][1..] == [c, d];
    assert [c, d][1..] == [d];
    var sp := " ";
    assert Join([c, d]) == c + sp + d;
    assert Join([b, c, d]) == b + sp + (c + sp + d);
    assert Join([a, b, c, d]) == a + sp + (b + sp + (c + sp + d));
    calc {
      a + sp + (b + sp + (c + sp + d));
    == { SeqAssoc(b + sp, c + sp, d); SeqAssoc(b + sp, c, sp); }
      a + sp + (b + sp + c + sp + d);
    == { SeqAssoc(a + sp, b + sp + c + sp, d); }
      a + sp + (b + sp + c + sp) + d;
    == { SeqAssoc(a + sp, b + sp + c, sp); SeqAssoc(a + sp, b + sp, c); SeqAssoc(a + sp, b, sp); }
      a + sp + b + sp + c + sp + d;
    }
  }

  /// Concatenation is associative.
  lemma SeqAssoc(a: string, b: string, c: string)
    ensures a + b + c == a + (b + c)
  {
  }

  /// Leading whitespace is skipped.
  lemma {:induction false} WordsSkipSpace(c: char, s: string)
    requires IsWhitespace(c)
    ensures Words([c] + s) == Words(s)
  {
    var t := [c] + s;
    assert t[1..] == s;
    assert t[SpaceRun(t)..] == s[SpaceRun(s)..];
  }

  /// A word followed by the rest of the string splits off as the first field.
  lemma {:induction false} WordsTakeWord(w: string, rest: string)
    requires Word(w)
    requires rest == [] || IsWhitespace(rest[0])
    ensures Words(w + rest) == [w] + Words(rest)
  {
    var t := w + rest;
    assert SpaceRun(t) == 0;
    assert t[0..] == t;
    WordRunOfWord(w, rest);
    assert t[..|w|] == w && t[|w|..] == rest;
  }

  /// The word run of a word followed by whitespace or nothing is the word.
  lemma {:induction false} WordRunOfWord(w: string, rest: string)
    requires forall i :: 0 <= i < |w| ==> !IsWhitespace(w[i])
    requires rest == [] || IsWhitespace(rest[0])
    ensures WordRun(w + rest) == |w|
    decreases |w|
  {
    if w != [] {
      assert (w + rest)[1..] == w[1..] + rest;
      WordRunOfWord(w[1..], rest);
    }
  }

  /// Splitting the joined fields gives the fields back.
  lemma {:induction false} WordsJoin(ws: seq<string>)
    requires forall i :: 0 <= i < |ws| ==> Word(ws[i])
    ensures Words(Join(ws)) == ws
  {
    if ws == [] {
    } else if |ws| == 1 {
      WordsTakeWord(ws[0], []);
      assert ws[0] + [] == ws[0];
    } else {
      var w, rest := ws[0], Join(ws[1..]);
      assert Word(w);
      calc {
        Words(Join(ws));
      == { assert Join(ws) == w + " " + rest; SeqAssoc(w, " ", rest); }
        Words(w + ([' '] + rest));
      == { WordsTakeWord(w, [' '] + rest); }
        [w] + Words([' '] + rest);
      == { WordsSkipSpace(' ', rest); }
        [w] + Words(rest);
      == { WordsJoin(ws[1..]); }
        [w] + ws[1..];
      }
    }
  }

  /// `Piece::from_char`: a piece letter, upper case for White and lower
  /// case for Black.
  function PieceFromChar(c: char): (r: Option<ColoredPiece>)
    ensures r.Some? <==> c in "pnbrqkPNBRQK"
    ensures r.Some? ==> (r.value.color == White <==> 'A' <= c <= 'Z')
  {
    match FromChar(c)
    case None => None
    case Some(kind) => Some(ColoredPiece(kind, if 'A' <= c <= 'Z' then White else Black))
  }

  /// `Piece::to_char`: the kind's letter, upper-cased for White.
  function PieceToChar(piece: ColoredPiece): (c: char)
    ensures c in "pnbrqkPNBRQK"
  {
    var lower := Pieces.ToChar(piece.kind);
    if piece.color == White then (lower as int - 'a' as int + 'A' as int) as char else lower
  }

  /// A piece letter parses back to its piece.
  lemma PieceCharRoundTrip(piece: ColoredPiece)
    ensures PieceFromChar(PieceToChar(piece)) == Some(piece)
  {
  }

  /// One piece letter: the piece goes on the square the counter names, if
  /// the counter names one and the builder accepts it.
  function PlaceLetter(b: BoardBuilder, index: nat, piece: ColoredPiece): (r: Result<BoardBuilder, FenLoadError>)
    requires BoardBuilders.Valid(b)
    ensures r.Ok? ==> BoardBuilders.Valid(r.value) && index <= 63
    ensures r.Ok? ==> r.value.pieceMap == b.pieceMap[index := Some(piece)]
    ensures r.Ok? ==> r.value.turn == b.turn && r.value.castlingRights == b.castlingRights
    ensures r.Ok? ==> r.value.enPassantSquare == b.enPassantSquare
    ensures index > 63 ==> r == Err(Formatting(InvalidPieceSection))
    ensures index <= 63 ==> (r.Err? <==> Piece(b, index, piece.kind, piece.color).Err?)
    ensures r.Err? && index <= 63 ==> r.error == Builder(Piece(b, index, piece.kind, piece.color).error)
  {
    if index > 63 then Err(Formatting(InvalidPieceSection))
    else
      PiecePreservesValid(b, index, piece.kind, piece.color);
      match Piece(b, index, piece.kind, piece.color)
      case Err(e) => Err(Builder(e))
      case Ok(n) => Ok(n)
  }

  /// One character of the piece section: a letter places a piece on the
  /// current square and steps right, a digit skips that many squares, `/`
  /// drops to the start of the rank below. The counter is a u8 and wraps
  /// around; a letter at a counter past H8 is refused.
  function PlaceChar(b: BoardBuilder, c: char, index: nat): (r: Result<(BoardBuilder, nat), FenLoadError>)
    requires BoardBuilders.Valid(b) && index < 256
    ensures r.Ok? ==> BoardBuilders.Valid(r.value.0) && r.value.1 < 256
    ensures r.Ok? ==> r.value.0.turn == b.turn && r.value.0.castlingRights == b.castlingRights
    ensures r.Ok? ==> r.value.0.enPassantSquare == b.enPassantSquare
    ensures r.Err? ==> r.error == Formatting(InvalidPieceSection) || r.error.Builder?
    ensures PieceFromChar(c).None? && !('1' <= c <= '8') && c != '/' ==> r == Err(Formatting(InvalidPieceSection))
  {
    if PieceFromChar(c).Some? then
      match PlaceLetter(b, index, PieceFromChar(c).value)
      case Err(e) => Err(e)
      case Ok(n) => Ok((n, (index + 1) % 256))
    else if '1' <= c <= '8' then
      Ok((b, (index + (c as int - '0' as int)) % 256))
    else if c == '/' then
      Ok((b, (index - 16) % 256))
    else
      Err(Formatting(InvalidPieceSection))
  }

  /// The piece section, character by character from the counter `index`.
  function PlacePieces(b: BoardBuilder, cs: string, index: nat): (r: Result<BoardBuilder, FenLoadError>)
    requires BoardBuilders.Valid(b) && index < 256
    ensures r.Ok? ==> BoardBuilders.Valid(r.value)
    ensures r.Ok? ==> r.value.turn == b.turn && r.value.castlingRights == b.castlingRights
    ensures r.Ok? ==> r.value.enPassantSquare == b.enPassantSquare
    ensures r.Err? ==> r.error == Formatting(InvalidPieceSection) || r.error.Builder?
    decreases |cs|
  {
    if cs == [] then Ok(b)
    else match PlaceChar(b, cs[0], index)
      case Err(e) => Err(e)
      case Ok((n, next)) => PlacePieces(n, cs[1..], next)
  }

  /// The loop over the piece section.
  method LoadPieces(b: BoardBuilder, cs: string) returns (r: Result<BoardBuilder, FenLoadError>)
    requires BoardBuilders.Valid(b)
    ensures r == PlacePieces(b, cs, A8)
  {
    var builder := b;
    var index: nat := A8;
    for i := 0 to |cs|
      invariant BoardBuilders.Valid(builder) && index < 256
      invariant PlacePieces(builder, cs[i..], index) == PlacePieces(b, cs, A8)
    {
      assert cs[i..][1..] == cs[i + 1..];
      var step := PlaceChar(builder, cs[i], index);
      if step.Err? {
        return Err(step.error);
      }
      builder, index := step.value.0, step.value.1;
    }
    return Ok(builder);
  }

  /// The turn field: `w` or `b`.
  function TurnField(b: BoardBuilder, field: string): (r: Result<BoardBuilder, FenLoadError>)
    requires BoardBuilders.Valid(b)
    ensures r.Ok? ==> BoardBuilders.Valid(r.value)
    ensures r.Ok? ==> r.value.turn == Some(if field == "w" then White else Black)
    ensures r.Ok? ==> r.value.pieceMap == b.pieceMap && r.value.castlingRights == b.castlingRights
    ensures r.Ok? ==> r.value.enPassantSquare == b.enPassantSquare
    ensures field != "w" && field != "b" ==> r == Err(Formatting(InvalidTurnSection))
    ensures b.turn.None? && (field == "w" || field == "b") ==> r.Ok?
  {
    TurnPreservesValid(b, White);
    TurnPreservesValid(b, Black);
    if field == "w" then
      match Turn(b, White) case Err(e) => Err(Builder(e)) case Ok(n) => Ok(n)
    else if field == "b" then
      match Turn(b, Black) case Err(e) => Err(Builder(e)) case Ok(n) => Ok(n)
    else
      Err(Formatting(InvalidTurnSection))
  }

  /// The castling letter of a right.
  function RightChar(side: CastleSide, color: Color): char
  {
    match (side, color)
    case (Kingside, White) => 'K'
    case (Queenside, White) => 'Q'
    case (Kingside, Black) => 'k'
    case (Queenside, Black) => 'q'
  }

  /// The right a castling letter stands for.
  function RightOf(c: char): (r: Option<(CastleSide, Color)>)
    ensures r.Some? <==> c in "KQkq"
    ensures r.Some? ==> RightChar(r.value.0, r.value.1) == c
  {
    match c
    case 'K' => Some((Kingside, White))
    case 'Q' => Some((Queenside, White))
    case 'k' => Some((Kingside, Black))
    case 'q' => Some((Queenside, Black))
    case _ => None
  }

  /// The castling letters, each granting its right once.
  function CastleLetters(b: BoardBuilder, cs: string): (r: Result<BoardBuilder, FenLoadError>)
    requires BoardBuilders.Valid(b)
    ensures r.Ok? ==> BoardBuilders.Valid(r.value)
    ensures r.Ok? ==> r.value.pieceMap == b.pieceMap && r.value.turn == b.turn
    ensures r.Ok? ==> r.value.enPassantSquare == b.enPassantSquare
    ensures r.Err? ==> r.error == Formatting(InvalidCastleRights) || r.error == Builder(CastleRightAlreadySet)
    decreases |cs|
  {
    if cs == [] then Ok(b)
    else match RightOf(cs[0])
      case None => Err(Formatting(InvalidCastleRights))
      case Some((side, color)) =>
        CastleRightPreservesValid(b, side, color);
        match CastleRight(b, side, color)
        case Err(e) => Err(Builder(e))
        case Ok(n) => CastleLetters(n, cs[1..])
  }

  /// The castling field: `-` for no rights, otherwise the letters.
  function CastleField(b: BoardBuilder, field: string): (r: Result<BoardBuilder, FenLoadError>)
    requires BoardBuilders.Valid(b)
    ensures r.Ok? ==> BoardBuilders.Valid(r.value)
    ensures r.Ok? ==> r.value.pieceMap == b.pieceMap && r.value.turn == b.turn
    ensures r.Ok? ==> r.value.enPassantSquare == b.enPassantSquare
    ensures field == "-" ==> r == Ok(b)
  {
    if field == "-" then Ok(b) else CastleLetters(b, field)
  }

  /// The loop over the castling letters.
  method LoadCastleRights(b: BoardBuilder, field: string) returns (r: Result<BoardBuilder, FenLoadError>)
    requires BoardBuilders.Valid(b)
    ensures r == CastleField(b, field)
  {
    if field == "-" {
      return Ok(b);
    }
    var builder := b;
    for i := 0 to |field|
      invariant BoardBuilders.Valid(builder)
      invariant CastleLetters(builder, field[i..]) == CastleLetters(b, field)
    {
      assert field[i..][1..] == field[i + 1..];
      var right := RightOf(field[i]);
      if right.None? {
        return Err(Formatting(InvalidCastleRights));
      }
      var (side, color) := right.value;
      CastleRightPreservesValid(builder, side, color);
      var granted := CastleRight(builder, side, color);
      if granted.Err? {
        return Err(Builder(granted.error));
      }
      builder := granted.value;
    }
    return Ok(builder);
  }

  /// The en-passant field: a square name sets the square, `-` leaves it
  /// unset, anything else is refused.
  function EnPassantField(b: BoardBuilder, field: string): (r: Result<BoardBuilder, FenLoadError>)
    requires BoardBuilders.Valid(b)
    ensures r.Ok? ==> BoardBuilders.Valid(r.value)
    ensures r.Ok? ==> r.value.pieceMap == b.pieceMap && r.value.turn == b.turn
    ensures r.Ok? ==> r.value.castlingRights == b.castlingRights
    ensures r.Ok? && FromString(field).Ok? ==> r.value.enPassantSquare == Some(FromString(field).value)
    ensures field == "-" ==> r == Ok(b)
    ensures FromString(field).Err? && field != "-" ==> r == Err(Formatting(FenFormatError.InvalidEnPassant))
  {
    match FromString(field)
    case Ok(square) =>
      EnPassantPreservesValid(b, square);
      (match BoardBuilders.EnPassant(b, square) case Err(e) => Err(Builder(e)) case Ok(n) => Ok(n))
    case Err(_) =>
      if field != "-" then Err(Formatting(FenFormatError.InvalidEnPassant)) else Ok(b)
  }

  /// The builder the first four fields describe, or the first error met;
  /// a missing field is reported only once the fields before it loaded.
  function FenBuilder(fields: seq<string>): (r: Result<BoardBuilder, FenLoadError>)
    ensures r.Ok? ==> BoardBuilders.Valid(r.value) && r.value.turn.Some?
    ensures |fields| == 0 ==> r == Err(Formatting(MissingPieceSection))
  {
    if |fields| < 1 then Err(Formatting(MissingPieceSection))
    else match PlacePieces(BoardBuilders.New(), fields[0], A8)
    case Err(e) => Err(e)
    case Ok(placed) =>
      if |fields| < 2 then Err(Formatting(MissingTurnSection))
      else match TurnField(placed, fields[1])
      case Err(e) => Err(e)
      case Ok(turned) =>
        if |fields| < 3 then Err(Formatting(MissingCastleRights))
        else match CastleField(turned, fields[2])
        case Err(e) => Err(e)
        case Ok(castled) =>
          if |fields| < 4 then Err(Formatting(MissingEnPassant))
          else EnPassantField(castled, fields[3])
  }

  /// The builder steps of `from_fen`.
  method BuildFromFields(fields: seq<string>) returns (r: Result<BoardBuilder, FenLoadError>)
    ensures r == FenBuilder(fields)
  {
    if |fields| < 1 {
      return Err(Formatting(MissingPieceSection));
    }
    var placed := LoadPieces(BoardBuilders.New(), fields[0]);
    if placed.Err? {
      return Err(placed.error);
    }
    if |fields| < 2 {
      return Err(Formatting(MissingTurnSection));
    }
    var turned := TurnField(placed.value, fields[1]);
    if turned.Err? {
      return Err(turned.error);
    }
    if |fields| < 3 {
      return Err(Formatting(MissingCastleRights));
    }
    var castled := LoadCastleRights(turned.value, fields[2]);
    if castled.Err? {
      return Err(castled.error);
    }
    if |fields| < 4 {
      return Err(Formatting(MissingEnPassant));
    }
    return EnPassantField(castled.value, fields[3]);
  }

  /// The value of a string of decimal digits.
  function DecimalValue(digits: string): nat
    requires forall i :: 0 <= i < |digits| ==> '0' <= digits[i] <= '9'
  {
    if digits == [] then 0
    else 10 * DecimalValue(digits[..|digits| - 1]) + (digits[|digits| - 1] as int - '0' as int)
  }

  /// `str::parse::<u8>`: an optional `+` followed by at least one decimal
  /// digit, with a value below 256.
  function ParseU8(s: string): (r: Option<nat>)
    ensures r.Some? ==> r.value < 256
  {
    var digits := if |s| > 0 && s[0] == '+' then s[1..] else s;
    if digits == [] || exists i :: 0 <= i < |digits| && !('0' <= digits[i] <= '9') then None
    else if DecimalValue(digits) > 255 then None
    else Some(DecimalValue(digits))
  }

  /// The decimal digits of a number, without leading zeros.
  function Decimal(n: nat): (s: string)
    ensures s != [] && forall i :: 0 <= i < |s| ==> '0' <= s[i] <= '9'
  {
    (if n < 10 then [] else Decimal(n / 10)) + [('0' as int + n % 10) as char]
  }

  /// Printed digits read back as the number.
  lemma {:induction false} DecimalValueOf(n: nat)
    ensures DecimalValue(Decimal(n)) == n
  {
    var s := Decimal(n);
    assert s[..|s| - 1] == (if n < 10 then [] else Decimal(n / 10));
    if n >= 10 {
      DecimalValueOf(n / 10);
    }
  }

  /// A u8 printed in decimal parses back.
  lemma ParseU8Decimal(n: nat)
    requires n < 256
    ensures ParseU8(Decimal(n)) == Some(n)
  {
    DecimalValueOf(n);
  }

  /// What `from_fen` does once the builder is ready: the conversion, then
  /// the half-move clock of the fifth field, if any (at most 100).
  ghost function Finished(b: BoardBuilder, fields: seq<string>): (r: Result<Position, FenLoadError>)
    requires BoardBuilders.Valid(b)
    ensures r.Ok? ==> Positions.WellFormed(r.value) && r.value.enPassant.None?
    ensures r.Ok? ==> r.value.halfMoveClock <= 100
    ensures r.Ok? ==> Query(r.value, King, White) != EMPTY && Query(r.value, King, Black) != EMPTY
  {
    if Rejection(b).Some? then Err(Conversion(Rejection(b).value))
    else if |fields| > 4 && (ParseU8(fields[4]).None? || ParseU8(fields[4]).value > 100) then
      Err(Formatting(InvalidHalfMoveSection))
    else
      ScreenedKings(b);
      var p := WithExtraData(Converted(b));
      Ok(if |fields| > 4 then p.(halfMoveClock := ParseU8(fields[4]).value) else p)
  }

  /// What `from_fen` yields for a string: the first error met, or the
  /// loaded board.
  ghost function FenOutcome(fen: string): (r: Result<Position, FenLoadError>)
    ensures r.Ok? ==> Positions.WellFormed(r.value) && r.value.enPassant.None?
    ensures r.Ok? ==> Query(r.value, King, White) != EMPTY && Query(r.value, King, Black) != EMPTY
  {
    match FenBuilder(Words(fen))
    case Err(e) => Err(e)
    case Ok(b) => Finished(b, Words(fen))
  }

  /// The conversion and the clock field.
  method Finish(b: BoardBuilder, fields: seq<string>, tables: CT.Build) returns (r: Result<ChessBoard, FenLoadError>)
    requires BoardBuilders.Valid(b) && CT.Ready(tables)
    ensures r.Err? <==> Finished(b, fields).Err?
    ensures r.Err? ==> r.error == Finished(b, fields).error
    ensures r.Ok? ==> fresh(r.value) && r.value.Valid() && r.value.tables == tables
    ensures r.Ok? ==> r.value.State() == Finished(b, fields).value
  {
    var converted := FromBuilder(b, tables);
    if converted.Err? {
      return Err(Conversion(converted.error));
    }
    var board := converted.value;
    if |fields| > 4 {
      var halfmoves := ParseU8(fields[4]);
      if halfmoves.None? || halfmoves.value > 100 {
        return Err(Formatting(InvalidHalfMoveSection));
      }
      board.SetHalfMoveClock(halfmoves.value);
    }
    return Ok(board);
  }

  /// `from_fen`.
  method FromFen(fen: string, tables: CT.Build) returns (r: Result<ChessBoard, FenLoadError>)
    requires CT.Ready(tables)
    ensures r.Err? <==> FenOutcome(fen).Err?
    ensures r.Err? ==> r.error == FenOutcome(fen).error
    ensures r.Ok? ==> fresh(r.value) && r.value.Valid() && r.value.tables == tables
    ensures r.Ok? ==> r.value.State() == FenOutcome(fen).value
  {
    var fields := Words(fen);
    var built := BuildFromFields(fields);
    if built.Err? {
      return Err(built.error);
    }
    r := Finish(built.value, fields, tables);
  }

  /// `START_FEN`, the standard starting position.
  const START_FEN: string := "rnbqkbnr/pppppppp/8/8/8/8/PPPPPPPP/RNBQKBNR w KQkq - 0 1"

  /// `ChessBoard::new`: `from_fen(START_FEN).unwrap()`. That the text
  /// loads is what the unwrap takes for granted.
  method NewBoard(tables: CT.Build) returns (board: ChessBoard)
    requires CT.Ready(tables) && FenOutcome(START_FEN).Ok?
    ensures fresh(board) && board.Valid() && board.tables == tables
    ensures board.State() == FenOutcome(START_FEN).value
    ensures Query(board.State(), King, board.State().turn) != EMPTY
  {
    var loaded := FromFen(START_FEN, tables);
    board := loaded.value;
  }
}
