// Reading back what `get_fen` writes. The FEN text of a board that
// `from_builder` would accept loads, through `from_fen`, to the same pieces,
// side to move and castling rights, with no en-passant square, a zero clock
// and freshly computed pins and checkers.
module FenRoundTrip {
  import opened Wrappers
  import opened Squares
  import opened BitBoards
  import opened Colors
  import opened Pieces
  import opened Castling
  import opened Positions
  import opened MoveEffects
  import opened BoardBuilders
  import opened BuilderConversion
  import opened Fen
  import opened FenWriter
  import Z = Zobrist

  /// The squares the piece section has filled on reaching `file` of `rank`:
  /// every square of a higher rank and the files before `file` on this one.
  predicate Placed(s: Square, rank: int, file: nat)
  {
    RankIndex(s) > rank || (RankIndex(s) == rank && FileIndex(s) < file)
  }

  /// The mailbox cut down to the squares already placed.
  function PartialMap(m: Mailbox, rank: int, file: nat): (r: seq<Option<ColoredPiece>>)
    ensures |r| == 64
    ensures forall s: Square :: r[s] == if Placed(s, rank, file) then m[s] else None
  {
    seq(64, i requires 0 <= i < 64 => if Placed(i, rank, file) then m[i] else None)
  }

  /// A mailbox the builder accepts piece by piece: no pawn on its last rank
  /// and at most one king of each color.
  ghost predicate Placeable(m: Mailbox)
  {
    (forall s: Square :: m[s].Some? ==> !PawnOnLastRank(m[s].value.kind, m[s].value.color, s))
    && (forall s: Square, t: Square :: m[s].Some? && m[s].value.kind == King && m[t] == m[s] ==> s == t)
  }

  /// Reading goes on after a character the loader accepts.
  lemma ReadStep(b: BoardBuilder, c: char, rest: string, index: nat, n: BoardBuilder, next: nat)
    requires BoardBuilders.Valid(b) && index < 256 && PlaceChar(b, c, index) == Ok((n, next))
    ensures PlacePieces(b, [c] + rest, index) == PlacePieces(n, rest, next)
  {
    var cs := [c] + rest;
    assert cs[0] == c && cs[1..] == rest;
  }

  /// A slash is accepted at any square of the second rank or above.
  lemma SlashStep(b: BoardBuilder, index: nat)
    requires BoardBuilders.Valid(b) && 16 <= index < 256
    ensures PlaceChar(b, '/', index) == Ok((b, index - 16))
  {
  }

  /// A digit steps over that many squares.
  lemma DigitStep(b: BoardBuilder, gap: nat, index: nat)
    requires BoardBuilders.Valid(b) && 0 < gap <= 8 && index + gap < 256
    ensures PlaceChar(b, ('0' as int + gap) as char, index) == Ok((b, index + gap))
  {
    var digit := ('0' as int + gap) as char;
    assert FromChar(digit).None?;
  }

  /// A run of empty squares, written as its digit, skips that many squares.
  lemma EmptyRun(b: BoardBuilder, gap: nat, rest: string, index: nat)
    requires BoardBuilders.Valid(b) && gap <= 8 && index + gap < 256
    ensures PlacePieces(b, GapText(gap) + rest, index) == PlacePieces(b, rest, index + gap)
  {
    if gap > 0 {
      DigitStep(b, gap, index);
      ReadStep(b, ('0' as int + gap) as char, rest, index, b, index + gap);
    } else {
      assert GapText(gap) + rest == rest;
    }
  }

  /// A slash steps back from the end of a rank to the start of the one below.
  lemma PlaceSlash(b: BoardBuilder, rest: string, index: nat)
    requires BoardBuilders.Valid(b) && 16 <= index < 256
    ensures PlacePieces(b, "/" + rest, index) == PlacePieces(b, rest, index - 16)
  {
    SlashStep(b, index);
    ReadStep(b, '/', rest, index, b, index - 16);
  }

  /// The builder accepts the next piece of a placeable mailbox.
  lemma PlaceOne(b: BoardBuilder, m: Mailbox, rank: nat, file: nat)
    requires BoardBuilders.Valid(b) && Placeable(m) && rank < 8 && file < 8
    requires b.pieceMap == PartialMap(m, rank, file)
    requires m[rank * 8 + file].Some?
    ensures var piece := m[rank * 8 + file].value;
      var r := Piece(b, rank * 8 + file, piece.kind, piece.color);
      r.Ok? && r.value.pieceMap == PartialMap(m, rank, file + 1)
  {
    var s := rank * 8 + file;
    var piece := m[s].value;
    assert RankIndex(s) == rank && FileIndex(s) == file;
    assert b.pieceMap[s].None?;
    forall t: Square ensures t in KingsOf(b, piece.color) ==> piece.kind != King {
      if t in KingsOf(b, piece.color) {
        assert b.pieceMap[t] == Some(ColoredPiece(King, piece.color));
        assert t != s;
      }
    }
    var n := Piece(b, s, piece.kind, piece.color).value;
    assert n.pieceMap == PartialMap(m, rank, file + 1);
  }

  /// A piece letter places its piece and steps right.
  lemma LetterStep(b: BoardBuilder, piece: ColoredPiece, s: Square)
    requires BoardBuilders.Valid(b) && Piece(b, s, piece.kind, piece.color).Ok?
    ensures PlaceChar(b, PieceToChar(piece), s) == Ok((Piece(b, s, piece.kind, piece.color).value, s + 1))
  {
    PieceCharRoundTrip(piece);
  }

  /// The rest of the piece section from `file` of `rank`, with `gap`
  /// empty squares pending.
  function TextFrom(m: Mailbox, rank: nat, file: nat, gap: nat): string
    requires rank < 8 && file <= 8 && gap <= file
    decreases rank, 8 - file
  {
    if file == 8 then
      GapText(gap) + (if rank == 0 then [] else "/" + TextFrom(m, rank - 1, 0, 0))
    else if m[rank * 8 + file].None? then TextFrom(m, rank, file + 1, gap + 1)
    else GapText(gap) + ([PieceToChar(m[rank * 8 + file].value)] + TextFrom(m, rank, file + 1, 0))
  }

  lemma {:induction false} PlaceRest(m: Mailbox, b: BoardBuilder, rank: nat, file: nat, gap: nat, index: nat, text: string)
    requires Placeable(m) && rank < 8 && file <= 8 && gap <= file && index == rank * 8 + file - gap
    requires text == TextFrom(m, rank, file, gap)
    requires BoardBuilders.Valid(b) && b.pieceMap == PartialMap(m, rank, file)
    ensures PlacePieces(b, text, index).Ok? && PlacePieces(b, text, index).value.pieceMap == m
    decreases rank, 8 - file, 2
  {
    if file == 8 {
      FinishRank(m, b, rank, gap, index, text);
    } else if m[rank * 8 + file].None? {
      SkipEmpty(m, b, rank, file, gap, index, text);
    } else {
      PlaceNext(m, b, rank, file, gap, index, text);
    }
  }

  /// Passing an empty square leaves the placed part of the mailbox as it is.
  lemma EmptyStaysEmpty(m: Mailbox, rank: nat, file: nat)
    requires rank < 8 && file < 8 && m[rank * 8 + file].None?
    ensures PartialMap(m, rank, file + 1) == PartialMap(m, rank, file)
  {
    var s := rank * 8 + file;
    assert RankIndex(s) == rank && FileIndex(s) == file;
  }

  lemma {:induction false} SkipEmpty(m: Mailbox, b: BoardBuilder, rank: nat, file: nat, gap: nat, index: nat, text: string)
    requires Placeable(m) && rank < 8 && file < 8 && gap <= file && index == rank * 8 + file - gap
    requires m[rank * 8 + file].None? && text == TextFrom(m, rank, file, gap)
    requires BoardBuilders.Valid(b) && b.pieceMap == PartialMap(m, rank, file)
    ensures PlacePieces(b, text, index).Ok? && PlacePieces(b, text, index).value.pieceMap == m
    decreases rank, 8 - file, 1
  {
    EmptyStaysEmpty(m, rank, file);
    PlaceRest(m, b, rank, file + 1, gap + 1, index, text);
  }

  lemma {:induction false} PlaceNext(m: Mailbox, b: BoardBuilder, rank: nat, file: nat, gap: nat, index: nat, text: string)
    requires Placeable(m) && rank < 8 && file < 8 && gap <= file && index == rank * 8 + file - gap
    requires m[rank * 8 + file].Some? && text == TextFrom(m, rank, file, gap)
    requires BoardBuilders.Valid(b) && b.pieceMap == PartialMap(m, rank, file)
    ensures PlacePieces(b, text, index).Ok? && PlacePieces(b, text, index).value.pieceMap == m
    decreases rank, 8 - file, 1
  {
    var s := rank * 8 + file;
    var piece := m[s].value;
    var c := PieceToChar(piece);
    var later := TextFrom(m, rank, file + 1, 0);
    assert text == GapText(gap) + ([c] + later);
    EmptyRun(b, gap, [c] + later, index);
    PlaceOne(b, m, rank, file);
    var n := Piece(b, s, piece.kind, piece.color).value;
    LetterStep(b, piece, s);
    ReadStep(b, c, later, s, n, s + 1);
    PlaceRest(m, n, rank, file + 1, 0, s + 1, later);
  }

  /// At the end of a rank: the pending run, then the ranks below.
  lemma {:induction false} FinishRank(m: Mailbox, b: BoardBuilder, rank: nat, gap: nat, index: nat, text: string)
    requires Placeable(m) && rank < 8 && gap <= 8 && index == rank * 8 + 8 - gap
    requires text == TextFrom(m, rank, 8, gap)
    requires BoardBuilders.Valid(b) && b.pieceMap == PartialMap(m, rank, 8)
    ensures PlacePieces(b, text, index).Ok? && PlacePieces(b, text, index).value.pieceMap == m
    decreases rank, 0, 1
  {
    var below := if rank == 0 then [] else "/" + TextFrom(m, rank - 1, 0, 0);
    assert text == GapText(gap) + below;
    EmptyRun(b, gap, below, index);
    NextRank(m, b, rank, below);
  }

  /// After a full rank: nothing more on the first rank, otherwise a slash
  /// and the rank below.
  lemma {:induction false} NextRank(m: Mailbox, b: BoardBuilder, rank: nat, below: string)
    requires Placeable(m) && rank < 8
    requires below == if rank == 0 then [] else "/" + TextFrom(m, rank - 1, 0, 0)
    requires BoardBuilders.Valid(b) && b.pieceMap == PartialMap(m, rank, 8)
    ensures PlacePieces(b, below, rank * 8 + 8).Ok? && PlacePieces(b, below, rank * 8 + 8).value.pieceMap == m
    decreases rank, 0, 0
  {
    if rank == 0 {
      AllPlaced(m);
    } else {
      PlaceSlash(b, TextFrom(m, rank - 1, 0, 0), rank * 8 + 8);
      RankDone(m, rank);
      PlaceRest(m, b, rank - 1, 0, 0, rank * 8 - 8, TextFrom(m, rank - 1, 0, 0));
    }
  }

  /// Once the first rank is done every square is placed.
  lemma AllPlaced(m: Mailbox)
    ensures PartialMap(m, 0, 8) == m
  {
  }

  /// A finished rank is the same as the start of the rank below.
  lemma RankDone(m: Mailbox, rank: nat)
    requires 0 < rank < 8
    ensures PartialMap(m, rank - 1, 0) == PartialMap(m, rank, 8)
  {
  }

  /// The piece section `get_fen` writes from a point on is `TextFrom` of
  /// the mailbox from there.
  predicate SameText(p: Position, m: Mailbox, rank: nat, file: nat, gap: nat)
    requires Positions.WellFormed(p) && rank < 8 && file <= 8 && gap <= file
  {
    PieceText(p, rank, file, gap) == TextFrom(m, rank, file, gap)
  }

  /// On consistent boards the piece section `get_fen` writes is
  /// `TextFrom` of the mailbox.
  lemma {:induction false} TextOfBoard(p: Position, m: Mailbox, rank: nat, file: nat, gap: nat)
    requires Positions.WellFormed(p) && Realizes(p, m) && rank < 8 && file <= 8 && gap <= file
    ensures SameText(p, m, rank, file, gap)
    decreases rank, 8 - file, 1
  {
    if file == 8 {
      BoardAtRankEnd(p, m, rank, gap);
    } else if m[rank * 8 + file].None? {
      BoardAtEmpty(p, m, rank, file, gap);
    } else {
      BoardAtPiece(p, m, rank, file, gap);
    }
  }

  /// `TextOfBoard` after file H.
  lemma {:induction false} BoardAtRankEnd(p: Position, m: Mailbox, rank: nat, gap: nat)
    requires Positions.WellFormed(p) && Realizes(p, m) && rank < 8 && gap <= 8
    ensures SameText(p, m, rank, 8, gap)
    decreases rank, 0, 0
  {
    if rank > 0 {
      TextOfBoard(p, m, rank - 1, 0, 0);
    }
    SameAtRankEnd(p, m, rank, gap);
  }

  /// `TextOfBoard` at an empty square.
  lemma {:induction false} BoardAtEmpty(p: Position, m: Mailbox, rank: nat, file: nat, gap: nat)
    requires Positions.WellFormed(p) && Realizes(p, m) && rank < 8 && file < 8 && gap <= file
    requires m[rank * 8 + file].None?
    ensures SameText(p, m, rank, file, gap)
    decreases rank, 8 - file, 0
  {
    TextOfBoard(p, m, rank, file + 1, gap + 1);
    SameAtEmpty(p, m, rank, file, gap);
  }

  /// `TextOfBoard` at an occupied square.
  lemma {:induction false} BoardAtPiece(p: Position, m: Mailbox, rank: nat, file: nat, gap: nat)
    requires Positions.WellFormed(p) && Realizes(p, m) && rank < 8 && file < 8 && gap <= file
    requires m[rank * 8 + file].Some?
    ensures SameText(p, m, rank, file, gap)
    decreases rank, 8 - file, 0
  {
    TextOfBoard(p, m, rank, file + 1, 0);
    SameAtPiece(p, m, rank, file, gap);
  }

  /// `TextOfBoard` after file H.
  lemma SameAtRankEnd(p: Position, m: Mailbox, rank: nat, gap: nat)
    requires Positions.WellFormed(p) && rank < 8 && gap <= 8
    requires rank > 0 ==> SameText(p, m, rank - 1, 0, 0)
    ensures SameText(p, m, rank, 8, gap)
  {
  }

  /// `TextOfBoard` at an empty square.
  lemma SameAtEmpty(p: Position, m: Mailbox, rank: nat, file: nat, gap: nat)
    requires Positions.WellFormed(p) && Realizes(p, m) && rank < 8 && file < 8 && gap <= file
    requires m[rank * 8 + file].None?
    requires SameText(p, m, rank, file + 1, gap + 1)
    ensures SameText(p, m, rank, file, gap)
  {
    PieceAtReads(p, m, rank * 8 + file);
  }

  /// `TextOfBoard` at an occupied square.
  lemma SameAtPiece(p: Position, m: Mailbox, rank: nat, file: nat, gap: nat)
    requires Positions.WellFormed(p) && Realizes(p, m) && rank < 8 && file < 8 && gap <= file
    requires m[rank * 8 + file].Some?
    requires SameText(p, m, rank, file + 1, 0)
    ensures SameText(p, m, rank, file, gap)
  {
    PieceAtReads(p, m, rank * 8 + file);
  }

  /// Above the first rank the piece section is not empty.
  lemma {:induction false} TextNonEmpty(m: Mailbox, rank: nat, file: nat, gap: nat)
    requires 0 < rank < 8 && file <= 8 && gap <= file
    ensures TextFrom(m, rank, file, gap) != []
    decreases 8 - file
  {
    if file < 8 && m[rank * 8 + file].None? {
      TextNonEmpty(m, rank, file + 1, gap + 1);
    }
  }

  /// The piece section holds no whitespace.
  lemma {:induction false} TextNoSpace(m: Mailbox, rank: nat, file: nat, gap: nat)
    requires rank < 8 && file <= 8 && gap <= file
    ensures NoSpace(TextFrom(m, rank, file, gap))
    decreases rank, 8 - file, 1
  {
    if file == 8 {
      NoSpaceAtRankEnd(m, rank, gap);
    } else if m[rank * 8 + file].None? {
      NoSpaceAtEmpty(m, rank, file, gap);
    } else {
      NoSpaceAtPiece(m, rank, file, gap);
    }
  }

  /// `TextNoSpace` after file H.
  lemma {:induction false} NoSpaceAtRankEnd(m: Mailbox, rank: nat, gap: nat)
    requires rank < 8 && gap <= 8
    ensures NoSpace(TextFrom(m, rank, 8, gap))
    decreases rank, 0, 0
  {
    if rank > 0 {
      TextNoSpace(m, rank - 1, 0, 0);
      GapNoSpace(gap, '/', TextFrom(m, rank - 1, 0, 0));
    } else {
      NoSpaceConcat(GapText(gap), []);
    }
  }

  /// `TextNoSpace` at an empty square.
  lemma {:induction false} NoSpaceAtEmpty(m: Mailbox, rank: nat, file: nat, gap: nat)
    requires rank < 8 && file < 8 && gap <= file && m[rank * 8 + file].None?
    ensures NoSpace(TextFrom(m, rank, file, gap))
    decreases rank, 8 - file, 0
  {
    TextNoSpace(m, rank, file + 1, gap + 1);
  }

  /// `TextNoSpace` at an occupied square.
  lemma {:induction false} NoSpaceAtPiece(m: Mailbox, rank: nat, file: nat, gap: nat)
    requires rank < 8 && file < 8 && gap <= file && m[rank * 8 + file].Some?
    ensures NoSpace(TextFrom(m, rank, file, gap))
    decreases rank, 8 - file, 0
  {
    TextNoSpace(m, rank, file + 1, 0);
    GapNoSpace(gap, PieceToChar(m[rank * 8 + file].value), TextFrom(m, rank, file + 1, 0));
  }

  /// A gap digit, then a letter or `/` and whitespace-free text, is free of
  /// whitespace.
  lemma GapNoSpace(gap: nat, c: char, rest: string)
    requires gap <= 8 && !IsWhitespace(c) && NoSpace(rest)
    ensures NoSpace(GapText(gap) + ([c] + rest))
  {
    NoSpaceConcat([c], rest);
    NoSpaceConcat(GapText(gap), [c] + rest);
  }

  /// Text free of whitespace.
  predicate NoSpace(w: string)
  {
    forall i :: 0 <= i < |w| ==> !IsWhitespace(w[i])
  }

  /// Joining whitespace-free texts gives whitespace-free text.
  lemma NoSpaceConcat(a: string, b: string)
    requires NoSpace(a) && NoSpace(b)
    ensures NoSpace(a + b)
  {
    assert forall i :: 0 <= i < |a + b| ==> (a + b)[i] == if i < |a| then a[i] else b[i - |a|];
  }

  /// Reading `text` as a piece section onto an empty builder places
  /// exactly `m`.
  predicate PlacesAll(text: string, m: Mailbox)
  {
    var r := PlacePieces(BoardBuilders.New(), text, A8);
    r.Ok? && r.value.pieceMap == m
  }

  /// The text `TextFrom` writes for a placeable mailbox places that
  /// mailbox on an empty builder.
  lemma MailboxRoundTrip(m: Mailbox, text: string)
    requires Placeable(m) && text == TextFrom(m, 7, 0, 0)
    ensures PlacesAll(text, m)
  {
    assert PartialMap(m, 7, 0) == BoardBuilders.New().pieceMap;
    PlaceRest(m, BoardBuilders.New(), 7, 0, 0, A8, text);
  }

  /// The whole piece section places the whole mailbox on an empty builder.
  lemma PiecesRoundTrip(p: Position, m: Mailbox)
    requires Positions.WellFormed(p) && Realizes(p, m) && Placeable(m)
    ensures PlacesAll(PieceText(p, 7, 0, 0), m)
  {
    TextOfBoard(p, m, 7, 0, 0);
    assert SameText(p, m, 7, 0, 0);
    MailboxRoundTrip(m, PieceText(p, 7, 0, 0));
  }

  /// The letter of a right when `on`, nothing otherwise.
  function Letter(on: bool, side: CastleSide, color: Color): string
  {
    if on then [RightChar(side, color)] else []
  }

  /// The builder after the letter of a right when `on`.
  function Grant(b: BoardBuilder, on: bool, side: CastleSide, color: Color): (n: BoardBuilder)
    requires BoardBuilders.Valid(b) && (on ==> !IsSet(b.castlingRights, side, color))
    ensures BoardBuilders.Valid(n)
    ensures n.pieceMap == b.pieceMap && n.turn == b.turn && n.enPassantSquare == b.enPassantSquare
    ensures forall s, c :: IsSet(n.castlingRights, s, c) <==>
      IsSet(b.castlingRights, s, c) || (on && (s, c) == (side, color))
  {
    CastleRightPreservesValid(b, side, color);
    if on then CastleRight(b, side, color).value else b
  }

  /// A castling letter grants its right and reading goes on.
  lemma StepLetter(b: BoardBuilder, on: bool, side: CastleSide, color: Color, rest: string)
    requires BoardBuilders.Valid(b) && (on ==> !IsSet(b.castlingRights, side, color))
    ensures CastleLetters(b, Letter(on, side, color) + rest) == CastleLetters(Grant(b, on, side, color), rest)
  {
    var cs := Letter(on, side, color) + rest;
    if on {
      assert cs[0] == RightChar(side, color) && cs[1..] == rest;
      assert RightOf(RightChar(side, color)) == Some((side, color));
    } else {
      assert cs == rest;
    }
  }

  /// The castling field `get_fen` writes grants exactly the rights it was
  /// written from.
  lemma CastleRoundTrip(b: BoardBuilder, rights: CastlingRights)
    requires BoardBuilders.Valid(b) && Castling.Valid(rights)
    requires forall s, c :: !IsSet(b.castlingRights, s, c)
    ensures var r := CastleField(b, CastleText(rights));
      r.Ok? && r.value.castlingRights == rights
      && r.value.pieceMap == b.pieceMap && r.value.turn == b.turn && r.value.enPassantSquare == b.enPassantSquare
  {
    NoneSetIff(rights);
    if IsNoneSet(rights) {
      Extensional(b.castlingRights, rights);
    } else {
      var kw, qw := IsSet(rights, Kingside, White), IsSet(rights, Queenside, White);
      var kb, qb := IsSet(rights, Kingside, Black), IsSet(rights, Queenside, Black);
      CastleTextParts(rights);
      GrantFour(b, kw, qw, kb, qb);
      var b4 := Grant(Grant(Grant(Grant(b, kw, Kingside, White), qw, Queenside, White), kb, Kingside, Black), qb, Queenside, Black);
      Extensional(b4.castlingRights, rights);
    }
  }

  /// The castling letters of rights that are not all clear: one letter per
  /// set right, in the order K, Q, k, q.
  lemma CastleTextParts(rights: CastlingRights)
    requires Castling.Valid(rights) && !IsNoneSet(rights)
    ensures CastleText(rights) != "-"
    ensures CastleText(rights)
      == Letter(IsSet(rights, Kingside, White), Kingside, White)
      + (Letter(IsSet(rights, Queenside, White), Queenside, White)
      + (Letter(IsSet(rights, Kingside, Black), Kingside, Black)
      + (Letter(IsSet(rights, Queenside, Black), Queenside, Black) + [])))
  {
    NoneSetIff(rights);
    var kw, qw := IsSet(rights, Kingside, White), IsSet(rights, Queenside, White);
    var kb, qb := IsSet(rights, Kingside, Black), IsSet(rights, Queenside, Black);
    var t1, t2 := Letter(kw, Kingside, White), Letter(qw, Queenside, White);
    var t3, t4 := Letter(kb, Kingside, Black), Letter(qb, Queenside, Black);
    var text := CastleText(rights);
    assert text == t1 + t2 + t3 + t4;
    assert text == t1 + (t2 + (t3 + (t4 + [])));
    assert text[0] in "KQkq" by {
      assert kw || qw || kb || qb;
    }
  }

  /// Reading four optional castling letters onto a builder with no rights
  /// grants the rights whose letters are present.
  lemma GrantFour(b: BoardBuilder, kw: bool, qw: bool, kb: bool, qb: bool)
    requires BoardBuilders.Valid(b) && forall s, c :: !IsSet(b.castlingRights, s, c)
    ensures var b4 := Grant(Grant(Grant(Grant(b, kw, Kingside, White), qw, Queenside, White), kb, Kingside, Black), qb, Queenside, Black);
      && CastleLetters(b, Letter(kw, Kingside, White) + (Letter(qw, Queenside, White)
          + (Letter(kb, Kingside, Black) + (Letter(qb, Queenside, Black) + [])))) == Ok(b4)
      && b4.pieceMap == b.pieceMap && b4.turn == b.turn && b4.enPassantSquare == b.enPassantSquare
  {
    var t2, t3, t4 := Letter(qw, Queenside, White), Letter(kb, Kingside, Black), Letter(qb, Queenside, Black);
    var b1 := Grant(b, kw, Kingside, White);
    StepLetter(b, kw, Kingside, White, t2 + (t3 + (t4 + [])));
    var b2 := Grant(b1, qw, Queenside, White);
    StepLetter(b1, qw, Queenside, White, t3 + (t4 + []));
    var b3 := Grant(b2, kb, Kingside, Black);
    StepLetter(b2, kb, Kingside, Black, t4 + []);
    StepLetter(b3, qb, Queenside, Black, []);
  }

  /// The castling field is a single field.
  lemma CastleTextWord(rights: CastlingRights)
    requires Castling.Valid(rights)
    ensures Word(CastleText(rights))
  {
    NoneSetIff(rights);
    if !IsNoneSet(rights) {
      var t1 := if IsSet(rights, Kingside, White) then "K" else [];
      var t2 := if IsSet(rights, Queenside, White) then "Q" else [];
      var t3 := if IsSet(rights, Kingside, Black) then "k" else [];
      var t4 := if IsSet(rights, Queenside, Black) then "q" else [];
      NoSpaceConcat(t1, t2);
      NoSpaceConcat(t1 + t2, t3);
      NoSpaceConcat(t1 + t2 + t3, t4);
      assert CastleText(rights) == t1 + t2 + t3 + t4;
    }
  }

  /// The piece section is a single field.
  lemma PiecesWord(p: Position, m: Mailbox)
    requires Positions.WellFormed(p) && Realizes(p, m)
    ensures Word(PieceText(p, 7, 0, 0))
  {
    TextOfBoard(p, m, 7, 0, 0);
    assert SameText(p, m, 7, 0, 0);
    TextNoSpace(m, 7, 0, 0);
    TextNonEmpty(m, 7, 0, 0);
  }

  /// The four fields of a board without an en-passant square are words.
  lemma FieldsAreWords(p: Position, m: Mailbox)
    requires Positions.WellFormed(p) && Realizes(p, m) && Castling.Valid(p.castlingRights) && p.enPassant.None?
    ensures forall i :: 0 <= i < |FenFields(p)| ==> Word(FenFields(p)[i])
  {
    PiecesWord(p, m);
    CastleTextWord(p.castlingRights);
    FourWords(PieceText(p, 7, 0, 0), [Colors.ToChar(p.turn)], CastleText(p.castlingRights), "-");
  }

  /// Four words are a sequence of words.
  lemma FourWords(a: string, b: string, c: string, d: string)
    requires Word(a) && Word(c)
    requires |b| == 1 && !IsWhitespace(b[0]) && d == "-"
    ensures forall i :: 0 <= i < |[a, b, c, d]| ==> Word([a, b, c, d][i])
  {
  }

  /// A board with its pins, checkers and clock cleared.
  function Stripped(p: Position): (q: Position)
    requires Positions.WellFormed(p)
    ensures Positions.WellFormed(q) && q.pieceBbs == p.pieceBbs && q.colorBbs == p.colorBbs
    ensures q.turn == p.turn && q.castlingRights == p.castlingRights && q.enPassant == p.enPassant
    ensures q.hash == p.hash && q.pinned == EMPTY && q.checkers == EMPTY && q.halfMoveClock == 0
  {
    p.(pinned := EMPTY, checkers := EMPTY, halfMoveClock := 0)
  }

  /// The board literal of a builder holding a position's placement, turn,
  /// rights and hash is that position stripped.
  lemma ConvertedIsStripped(b: BoardBuilder, p: Position, m: Mailbox)
    requires BoardBuilders.Valid(b) && Sound(p, m) && p.enPassant.None?
    requires b.pieceMap == m && b.turn == Some(p.turn) && b.castlingRights == p.castlingRights
    requires b.enPassantSquare.None?
    ensures Converted(b) == Stripped(p)
  {
    assert Consistent(b) && Realizes(p, m);
    forall k: PieceType ensures b.pieceBbs[Pieces.Index(k)] == p.pieceBbs[Pieces.Index(k)] {
      forall s: Square ensures s in b.pieceBbs[Pieces.Index(k)] <==> s in p.pieceBbs[Pieces.Index(k)] {
        assert s in b.pieceBbs[Pieces.Index(k)] <==> m[s].Some? && m[s].value.kind == k;
        assert s in p.pieceBbs[Pieces.Index(k)] <==> m[s].Some? && m[s].value.kind == k;
      }
    }
    forall c: Color ensures b.colorBbs[Colors.Index(c)] == p.colorBbs[Colors.Index(c)] {
      forall s: Square ensures s in b.colorBbs[Colors.Index(c)] <==> s in p.colorBbs[Colors.Index(c)] {
        assert s in b.colorBbs[Colors.Index(c)] <==> m[s].Some? && m[s].value.color == c;
        assert s in p.colorBbs[Colors.Index(c)] <==> m[s].Some? && m[s].value.color == c;
      }
    }
    assert b.pieceBbs == [b.pieceBbs[Pieces.Index(Pawn)], b.pieceBbs[Pieces.Index(Knight)],
      b.pieceBbs[Pieces.Index(Bishop)], b.pieceBbs[Pieces.Index(Rook)], b.pieceBbs[Pieces.Index(Queen)],
      b.pieceBbs[Pieces.Index(King)]];
    assert p.pieceBbs == [p.pieceBbs[Pieces.Index(Pawn)], p.pieceBbs[Pieces.Index(Knight)],
      p.pieceBbs[Pieces.Index(Bishop)], p.pieceBbs[Pieces.Index(Rook)], p.pieceBbs[Pieces.Index(Queen)],
      p.pieceBbs[Pieces.Index(King)]];
    assert b.colorBbs == [b.colorBbs[Colors.Index(White)], b.colorBbs[Colors.Index(Black)]];
    assert p.colorBbs == [p.colorBbs[Colors.Index(White)], p.colorBbs[Colors.Index(Black)]];
    assert b.pieceBbs == p.pieceBbs && b.colorBbs == p.colorBbs;
    assert b.hash.toggled == p.hash.toggled;
  }

  /// One king of each color, at most one by the mailbox and at least one
  /// by the boards, makes two kings in all.
  lemma TwoKings(p: Position, m: Mailbox)
    requires Positions.WellFormed(p) && Realizes(p, m) && Placeable(m)
    requires Query(p, King, White) != EMPTY && Query(p, King, Black) != EMPTY
    ensures Popcnt(p.pieceBbs[Pieces.Index(King)]) == 2
  {
    var w :| w in Query(p, King, White);
    var k :| k in Query(p, King, Black);
    var kings := p.pieceBbs[Pieces.Index(King)];
    assert w in p.colorBbs[Colors.Index(White)] && k in p.colorBbs[Colors.Index(Black)];
    assert m[w].value.color == White && m[k].value.color == Black;
    assert w in kings && k in kings && w != k;
    forall s | s in kings ensures s == w || s == k {
      assert m[s].Some? && m[s].value.kind == King;
      if m[s].value.color == White {
        assert m[s] == m[w];
      } else {
        assert m[s] == m[k];
      }
    }
    assert kings == {w, k};
    assert |{w, k}| == 2;
  }

  /// Whether the side not to move is in check depends on the boards and
  /// the turn alone.
  lemma AttackedFrame(p: Position, q: Position)
    requires Positions.WellFormed(p) && Positions.WellFormed(q)
    requires p.pieceBbs == q.pieceBbs && p.colorBbs == q.colorBbs && p.turn == q.turn
    requires Query(p, King, Opposite(p.turn)) != EMPTY
    ensures Query(q, King, Opposite(q.turn)) != EMPTY
    ensures AttackedBy(p, KingSquare(p, Opposite(p.turn)), p.turn)
        == AttackedBy(q, KingSquare(q, Opposite(q.turn)), q.turn)
  {
    assert Occupancy(p) == Occupancy(q);
    assert forall k, c :: Query(p, k, c) == Query(q, k, c);
  }

  /// Loading the FEN text `get_fen` writes for a board that the builder
  /// conversion accepts gives that board back, with a zero clock and pins
  /// and checkers recomputed. `get_fen` writes no clock, and the loader
  /// keeps no en-passant square, so the board has none.
  lemma FenRoundTrip(p: Position, m: Mailbox)
    requires Sound(p, m) && Placeable(m) && p.enPassant.None?
    requires Query(p, King, White) != EMPTY && Query(p, King, Black) != EMPTY
    requires Popcnt(p.colorBbs[Colors.Index(White)]) <= 18 && Popcnt(p.colorBbs[Colors.Index(Black)]) <= 18
    requires CastleChecksAsWritten(m, p.castlingRights)
    requires !AttackedBy(p, KingSquare(p, Opposite(p.turn)), p.turn)
    ensures FenOutcome(FenString(p)) == Ok(WithExtraData(Stripped(p)))
  {
    var fields := FenFields(p);
    FieldsAreWords(p, m);
    WordsJoin(fields);
    BuilderOfFields(p, m);
    var b := FenBuilder(fields).value;
    AcceptedBuilder(b, p, m);
    LoadOutcome(FenString(p), fields, b);
    assert Finished(b, fields) == Ok(WithExtraData(Converted(b)));
  }

  /// A text whose fields are four and build a builder that the conversion
  /// accepts loads as that builder converted, with a zero clock.
  lemma LoadOutcome(fen: string, fields: seq<string>, b: BoardBuilder)
    requires Words(fen) == fields && |fields| == 4 && FenBuilder(fields) == Ok(b)
    requires BoardBuilders.Valid(b) && Rejection(b).None?
    ensures FenOutcome(fen) == Finished(b, fields)
    ensures Finished(b, fields).Ok? && Finished(b, fields).value.halfMoveClock == 0
  {
  }

  /// The builder steps ended with the placement `m`, the turn and the
  /// rights set and no en-passant square.
  predicate Rebuilds(r: Result<BoardBuilder, FenLoadError>, m: Mailbox, turn: Color, rights: CastlingRights)
  {
    && r.Ok? && r.value.pieceMap == m && r.value.turn == Some(turn)
    && r.value.castlingRights == rights && r.value.enPassantSquare.None?
  }

  /// The builder steps of the loader rebuild the placement, the turn and
  /// the rights from the four fields `get_fen` writes.
  lemma BuilderOfFields(p: Position, m: Mailbox)
    requires Sound(p, m) && Placeable(m) && p.enPassant.None?
    ensures Rebuilds(FenBuilder(FenFields(p)), m, p.turn, p.castlingRights)
  {
    PiecesRoundTrip(p, m);
    BuilderSteps(PieceText(p, 7, 0, 0), m, p.turn, p.castlingRights);
    assert FenFields(p) == [PieceText(p, 7, 0, 0), [Colors.ToChar(p.turn)], CastleText(p.castlingRights), "-"];
  }

  /// The four builder steps on a piece section that places `m`, a turn
  /// letter, the castling letters of valid rights and `-`.
  lemma BuilderSteps(pieces: string, m: Mailbox, turn: Color, rights: CastlingRights)
    requires PlacesAll(pieces, m) && Castling.Valid(rights)
    ensures Rebuilds(FenBuilder([pieces, [Colors.ToChar(turn)], CastleText(rights), "-"]), m, turn, rights)
  {
    var placed := PlacePieces(BoardBuilders.New(), pieces, A8).value;
    var turned := TurnField(placed, [Colors.ToChar(turn)]).value;
    CastleRoundTrip(turned, rights);
    var castled := CastleField(turned, CastleText(rights)).value;
    assert EnPassantField(castled, "-") == Ok(castled);
  }

  /// The conversion accepts a builder holding a position that has one king
  /// of each color, no overfull side, rights that pass its checks and the
  /// side not to move out of check, and gives that position stripped.
  lemma AcceptedBuilder(b: BoardBuilder, p: Position, m: Mailbox)
    requires BoardBuilders.Valid(b) && Sound(p, m) && Placeable(m) && p.enPassant.None?
    requires b.pieceMap == m && b.turn == Some(p.turn) && b.castlingRights == p.castlingRights
    requires b.enPassantSquare.None?
    requires Query(p, King, White) != EMPTY && Query(p, King, Black) != EMPTY
    requires Popcnt(p.colorBbs[Colors.Index(White)]) <= 18 && Popcnt(p.colorBbs[Colors.Index(Black)]) <= 18
    requires CastleChecksAsWritten(m, p.castlingRights)
    requires !AttackedBy(p, KingSquare(p, Opposite(p.turn)), p.turn)
    ensures Rejection(b).None? && Converted(b) == Stripped(p)
  {
    ConvertedIsStripped(b, p, m);
    TwoKings(p, m);
    assert Screen(b).None?;
    AttackedFrame(p, Converted(b));
  }
}
