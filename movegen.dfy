// Turning a (start, end) pair or a move string into a `Move`, and the
// legality test both rest on (src/chessboard/movegen/movegen.rs).
module MoveGens {
  import opened Wrappers
  import opened Squares
  import opened BitBoards
  import opened Colors
  import opened Pieces
  import opened Castling
  import opened Positions
  import opened MoveLists
  import opened Generator
  import MoveEffects
  import Utf8
  import Ranks
  import CT = ChessboardTables

  /// `StrMoveCreationError`: a badly formed string, or a well formed one
  /// naming an illegal move.
  datatype StrMoveCreationError = InvalidMove | IllegalMove

  /// `MoveCreationError`: the pair of squares is not a legal move.
  datatype MoveCreationError = MoveCreationError

  // ---------------------------------------------------------------------
  // Classification.

  /// The ranks a pawn of `us` is tested against: the rank it starts on,
  /// the rank a double push lands on, and the rank it promotes on.
  function PawnRanks(us: Color): (Ranks.Rank, Ranks.Rank, Ranks.Rank)
  {
    match us
    case White => (Ranks.Second, Ranks.Fourth, Ranks.Eighth)
    case Black => (Ranks.Seventh, Ranks.Fifth, Ranks.First)
  }

  /// A move onto `end` takes a piece: `end` holds a piece of `them`.
  predicate Takes(p: Position, end: Square, them: Color)
    requires WellFormed(p)
  {
    Overlaps(FromSquare(end), ColorOccupancy(p, them))
  }

  /// `create_promotion_move_unchecked`: the kind of move the piece on
  /// `start` makes by going to `end`. A pawn may make a double push, an
  /// en-passant capture or a promotion (to `target`); a king on its home
  /// square going two files across castles; anything else is a capture or
  /// a quiet move depending on what stands on `end`. The Rust code unwraps
  /// the piece on `start`.
  function Classify(p: Position, start: Square, end: Square, target: PieceType): (mv: Move)
    requires WellFormed(p) && start in Occupancy(p)
    ensures mv.start == start && mv.end == end
  {
    var us := p.turn;
    var them := Opposite(us);
    var moving := PieceAt(p, start).value.kind;
    var ranks := PawnRanks(us);
    if moving == Pawn && Rank(start) == ranks.0 && Rank(end) == ranks.1 then
      DoublePawnPush(start, end)
    else if moving == Pawn && p.enPassant == Some(end) then
      EnPassant(start, end)
    else if moving == Pawn && Rank(end) == ranks.2 then
      if Takes(p, end, them) then PromoteCapture(start, end, target) else Promote(start, end, target)
    else if moving == King && start == MoveEffects.KingHome(us) && end == MoveEffects.CastleKingEnd(us, Kingside) then
      Castle(start, end, Kingside)
    else if moving == King && start == MoveEffects.KingHome(us) && end == MoveEffects.CastleKingEnd(us, Queenside) then
      Castle(start, end, Queenside)
    else if Takes(p, end, them) then
      Capture(start, end, moving)
    else
      Quiet(start, end, moving)
  }

  /// A move is a promotion of either kind.
  predicate IsPromotion(mv: Move)
  {
    mv.Promote? || mv.PromoteCapture?
  }

  /// `end` holds a piece of `them` exactly when the move onto it takes.
  lemma TakesMeaning(p: Position, end: Square, them: Color)
    requires WellFormed(p)
    ensures Takes(p, end, them) <==> end in ColorOccupancy(p, them)
  {
    OverlapsSquare(ColorOccupancy(p, them), end);
    assert FromSquare(end) * ColorOccupancy(p, them) == ColorOccupancy(p, them) * FromSquare(end);
  }

  /// A pawn goes from the second rank to the fourth (seventh to fifth for
  /// Black) by a double push; otherwise onto the en-passant square by an
  /// en-passant capture; otherwise onto the last rank by a promotion to
  /// `target`, which takes exactly when an enemy piece stands there; any
  /// other pawn move is a capture or a quiet move.
  lemma ClassifyPawn(p: Position, start: Square, end: Square, target: PieceType)
    requires WellFormed(p) && start in Occupancy(p) && PieceAt(p, start).value.kind == Pawn
    ensures var mv := Classify(p, start, end, target);
      var white := p.turn == White;
      var double := RankIndex(start) == (if white then 1 else 6) && RankIndex(end) == (if white then 3 else 4);
      var promotes := !double && p.enPassant != Some(end) && RankIndex(end) == (if white then 7 else 0);
      var taking := end in ColorOccupancy(p, Opposite(p.turn));
      && (mv.DoublePawnPush? <==> double)
      && (mv.EnPassant? <==> !double && p.enPassant == Some(end))
      && (IsPromotion(mv) <==> promotes)
      && (promotes ==> mv.target == target && (mv.PromoteCapture? <==> taking))
      && (!double && p.enPassant != Some(end) && !promotes ==>
            mv == (if taking then Capture(start, end, Pawn) else Quiet(start, end, Pawn)))
  {
    TakesMeaning(p, end, Opposite(p.turn));
  }

  /// A king castles exactly when it leaves its home square for the
  /// castle square of one side, and then castles to that side; any other
  /// king move is a capture or a quiet move.
  lemma ClassifyKing(p: Position, start: Square, end: Square, target: PieceType)
    requires WellFormed(p) && start in Occupancy(p) && PieceAt(p, start).value.kind == King
    ensures var mv := Classify(p, start, end, target);
      var us := p.turn;
      && (mv.Castle? <==>
            (start == MoveEffects.KingHome(us)
             && (end == MoveEffects.CastleKingEnd(us, Kingside) || end == MoveEffects.CastleKingEnd(us, Queenside))))
      && (mv.Castle? ==> end == MoveEffects.CastleKingEnd(us, mv.side))
      && (!mv.Castle? ==>
            mv == (if end in ColorOccupancy(p, Opposite(us)) then Capture(start, end, King) else Quiet(start, end, King)))
  {
    TakesMeaning(p, end, Opposite(p.turn));
  }

  /// Knights, bishops, rooks and queens make captures onto enemy pieces
  /// and quiet moves otherwise.
  lemma ClassifyPiece(p: Position, start: Square, end: Square, target: PieceType)
    requires WellFormed(p) && start in Occupancy(p)
    requires PieceAt(p, start).value.kind != Pawn && PieceAt(p, start).value.kind != King
    ensures var moving := PieceAt(p, start).value.kind;
      Classify(p, start, end, target) ==
        if end in ColorOccupancy(p, Opposite(p.turn)) then Capture(start, end, moving) else Quiet(start, end, moving)
  {
    TakesMeaning(p, end, Opposite(p.turn));
  }

  /// The promotion target only matters for promotions: for any other move
  /// every target gives the same move, and for a promotion another target
  /// gives the same promotion to that piece.
  lemma ClassifyTarget(p: Position, start: Square, end: Square, target: PieceType, other: PieceType)
    requires WellFormed(p) && start in Occupancy(p)
    ensures var mv := Classify(p, start, end, target);
      Classify(p, start, end, other) == if IsPromotion(mv) then mv.(target := other) else mv
  {
  }

  /// On a board whose colors do not overlap and whose en-passant square
  /// has a piece behind it, the move built for a piece of the side to
  /// move is one `make_move` can play without any unwrap failing.
  lemma ClassifiedApplicable(p: Position, start: Square, end: Square, target: PieceType)
    requires WellFormed(p) && start in ColorOccupancy(p, p.turn)
    requires ColorOccupancy(p, White) * ColorOccupancy(p, Black) == EMPTY
    requires p.enPassant.Some? ==>
      CapturedSquare(p.turn, p.enPassant.value).Some? && CapturedSquare(p.turn, p.enPassant.value).value in Occupancy(p)
    ensures Applicable(p, Classify(p, start, end, target))
  {
    var them := Opposite(p.turn);
    var mv := Classify(p, start, end, target);
    TakesMeaning(p, end, them);
    if mv.PromoteCapture? {
      assert end in ColorOccupancy(p, them);
      assert start !in ColorOccupancy(p, them);
    }
  }

  // ---------------------------------------------------------------------
  // Legality.

  /// Some entry of `entries` is for `start` and has `end` among its
  /// targets: `end` is a legal destination of the piece on `start` when
  /// `entries` is the legal move list.
  predicate Lists(entries: seq<PieceMoves>, start: Square, end: Square)
  {
    exists e :: e in entries && e.location == start && end in e.targets
  }

  /// The list of legal moves (`generate_moves` outside captures-only mode).
  ghost function LegalEntries(tables: CT.Build, p: Position): seq<PieceMoves>
    requires Ready(tables, p)
  {
    GeneratedEntries(tables, p, false)
  }

  /// An entry of one loop of the generator is a piece of the side to move
  /// with at least one target.
  lemma EntriesOwn(tables: CT.Build, p: Position, mover: Mover, capturesOnly: bool, inCheck: bool, e: PieceMoves)
    requires Ready(tables, p) && (inCheck ==> p.checkers != EMPTY)
    requires e in Entries(tables, p, mover, Movers(p, mover), capturesOnly, inCheck)
    ensures e.location in ColorOccupancy(p, p.turn) && e.targets != EMPTY
  {
    EntriesMeaning(tables, p, mover, Movers(p, mover), capturesOnly, inCheck, e);
  }

  /// The king's entry is the king of the side to move, with targets.
  lemma KingEntryOwn(tables: CT.Build, p: Position, capturesOnly: bool, inCheck: bool, e: PieceMoves)
    requires Ready(tables, p) && e in KingEntry(tables, p, capturesOnly, inCheck)
    ensures e.location in ColorOccupancy(p, p.turn) && e.targets != EMPTY
  {
  }

  /// Every entry of the five loops is a piece of the side to move with
  /// targets.
  lemma AllEntriesOwn(tables: CT.Build, p: Position, capturesOnly: bool, inCheck: bool, e: PieceMoves)
    requires Ready(tables, p) && (inCheck ==> p.checkers != EMPTY)
    requires e in AllEntries(tables, p, capturesOnly, inCheck)
    ensures e.location in ColorOccupancy(p, p.turn) && e.targets != EMPTY
  {
    var pawns := Entries(tables, p, Pawns, Movers(p, Pawns), capturesOnly, inCheck);
    var knights := Entries(tables, p, Knights, Movers(p, Knights), capturesOnly, inCheck);
    var king := KingEntry(tables, p, capturesOnly, inCheck);
    var bishops := Entries(tables, p, Bishops, Movers(p, Bishops), capturesOnly, inCheck);
    var rooks := Entries(tables, p, Rooks, Movers(p, Rooks), capturesOnly, inCheck);
    assert AllEntries(tables, p, capturesOnly, inCheck) == pawns + knights + king + bishops + rooks;
    if e in pawns {
      EntriesOwn(tables, p, Pawns, capturesOnly, inCheck, e);
    } else if e in knights {
      EntriesOwn(tables, p, Knights, capturesOnly, inCheck, e);
    } else if e in king {
      KingEntryOwn(tables, p, capturesOnly, inCheck, e);
    } else if e in bishops {
      EntriesOwn(tables, p, Bishops, capturesOnly, inCheck, e);
    } else {
      EntriesOwn(tables, p, Rooks, capturesOnly, inCheck, e);
    }
  }

  /// Every entry of the generated list is a piece of the side to move with
  /// at least one target.
  lemma GeneratedOwn(tables: CT.Build, p: Position, capturesOnly: bool, e: PieceMoves)
    requires Ready(tables, p) && e in GeneratedEntries(tables, p, capturesOnly)
    ensures e.location in ColorOccupancy(p, p.turn) && e.targets != EMPTY
  {
    if p.checkers == EMPTY {
      AllEntriesOwn(tables, p, capturesOnly, false, e);
    } else if |p.checkers| == 1 {
      AllEntriesOwn(tables, p, capturesOnly, true, e);
    } else {
      KingEntryOwn(tables, p, capturesOnly, true, e);
    }
  }

  /// Entries naming pieces of the side to move, each with targets.
  ghost predicate OwnEntries(p: Position, entries: seq<PieceMoves>)
    requires WellFormed(p)
  {
    forall i :: 0 <= i < |entries| ==> entries[i].location in ColorOccupancy(p, p.turn) && entries[i].targets != EMPTY
  }

  /// The generated list names pieces of the side to move, each with
  /// targets; in particular every entry names an occupied square.
  lemma GeneratedLocated(tables: CT.Build, p: Position, capturesOnly: bool)
    requires Ready(tables, p)
    ensures OwnEntries(p, GeneratedEntries(tables, p, capturesOnly))
    ensures Located(p, GeneratedEntries(tables, p, capturesOnly))
  {
    var entries := GeneratedEntries(tables, p, capturesOnly);
    forall i | 0 <= i < |entries|
      ensures entries[i].location in ColorOccupancy(p, p.turn) && entries[i].targets != EMPTY
    {
      GeneratedOwn(tables, p, capturesOnly, entries[i]);
    }
  }

  /// A listed pair starts on a piece of the side to move.
  lemma ListedOwn(p: Position, entries: seq<PieceMoves>, start: Square, end: Square)
    requires WellFormed(p) && OwnEntries(p, entries) && Lists(entries, start, end)
    ensures start in ColorOccupancy(p, p.turn) && start in Occupancy(p)
  {
    var e :| e in entries && e.location == start && end in e.targets;
    var i :| 0 <= i < |entries| && entries[i] == e;
  }

  // ---------------------------------------------------------------------
  // The legal destinations of one square.

  /// The targets the loop of `mover` computes for `start`, when it visits
  /// `start`.
  function MoverPart(tables: CT.Build, p: Position, mover: Mover, start: Square, inCheck: bool): BitBoard
    requires Ready(tables, p) && (inCheck ==> p.checkers != EMPTY)
  {
    if start in Movers(p, mover) then Targets(tables, p, mover, start, false, inCheck) else EMPTY
  }

  /// The king's targets, when `start` is the king of the side to move.
  ghost function KingPart(tables: CT.Build, p: Position, start: Square, inCheck: bool): BitBoard
    requires Ready(tables, p)
  {
    if start == KingSquare(p, p.turn) then KingTargets(tables, p, false, inCheck) else EMPTY
  }

  /// `generate_square_legal`: the legal destinations of the piece on
  /// `start`, gathered from the same loops `generate_moves` runs, without
  /// a move list; in double check only the king's.
  ghost function SquareLegal(tables: CT.Build, p: Position, start: Square): BitBoard
    requires Ready(tables, p)
  {
    var inCheck := p.checkers != EMPTY;
    if |p.checkers| > 1 then KingPart(tables, p, start, inCheck)
    else
      MoverPart(tables, p, Pawns, start, inCheck) + MoverPart(tables, p, Knights, start, inCheck)
      + KingPart(tables, p, start, inCheck)
      + MoverPart(tables, p, Bishops, start, inCheck) + MoverPart(tables, p, Rooks, start, inCheck)
  }

  /// A pair is listed in a concatenation when it is listed in either part.
  lemma ListsConcat(a: seq<PieceMoves>, b: seq<PieceMoves>, start: Square, end: Square)
    ensures Lists(a + b, start, end) <==> Lists(a, start, end) || Lists(b, start, end)
  {
    if Lists(a + b, start, end) {
      var e :| e in a + b && e.location == start && end in e.targets;
      assert e in a || e in b;
    }
    if Lists(a, start, end) {
      var e :| e in a && e.location == start && end in e.targets;
      assert e in a + b;
    }
    if Lists(b, start, end) {
      var e :| e in b && e.location == start && end in e.targets;
      assert e in a + b;
    }
  }

  /// A loop lists a pair exactly when it visits the start and computes the
  /// end among its targets.
  lemma ListsEntries(tables: CT.Build, p: Position, mover: Mover, inCheck: bool, start: Square, end: Square)
    requires Ready(tables, p) && (inCheck ==> p.checkers != EMPTY)
    ensures Lists(Entries(tables, p, mover, Movers(p, mover), false, inCheck), start, end)
      <==> end in MoverPart(tables, p, mover, start, inCheck)
  {
    var entries := Entries(tables, p, mover, Movers(p, mover), false, inCheck);
    if Lists(entries, start, end) {
      var e :| e in entries && e.location == start && end in e.targets;
      EntriesMeaning(tables, p, mover, Movers(p, mover), false, inCheck, e);
    }
    if end in MoverPart(tables, p, mover, start, inCheck) {
      var e := PieceMoves(start, Targets(tables, p, mover, start, false, inCheck));
      EntriesMeaning(tables, p, mover, Movers(p, mover), false, inCheck, e);
    }
  }

  /// Every loop's part of the legal list lists exactly the pairs the
  /// matching part of `SquareLegal` holds.
  lemma ListsAllEntries(tables: CT.Build, p: Position, inCheck: bool, start: Square, end: Square)
    requires Ready(tables, p) && (inCheck ==> p.checkers != EMPTY)
    ensures Lists(AllEntries(tables, p, false, inCheck), start, end) <==>
      end in MoverPart(tables, p, Pawns, start, inCheck) + MoverPart(tables, p, Knights, start, inCheck)
      + KingPart(tables, p, start, inCheck)
      + MoverPart(tables, p, Bishops, start, inCheck) + MoverPart(tables, p, Rooks, start, inCheck)
  {
    var pawns := Entries(tables, p, Pawns, Movers(p, Pawns), false, inCheck);
    var knights := Entries(tables, p, Knights, Movers(p, Knights), false, inCheck);
    var king := KingEntry(tables, p, false, inCheck);
    var bishops := Entries(tables, p, Bishops, Movers(p, Bishops), false, inCheck);
    var rooks := Entries(tables, p, Rooks, Movers(p, Rooks), false, inCheck);
    assert AllEntries(tables, p, false, inCheck) == pawns + knights + king + bishops + rooks;
    ListsConcat(pawns + knights + king + bishops, rooks, start, end);
    ListsConcat(pawns + knights + king, bishops, start, end);
    ListsConcat(pawns + knights, king, start, end);
    ListsConcat(pawns, knights, start, end);
    ListsEntries(tables, p, Pawns, inCheck, start, end);
    ListsEntries(tables, p, Knights, inCheck, start, end);
    ListsEntries(tables, p, Bishops, inCheck, start, end);
    ListsEntries(tables, p, Rooks, inCheck, start, end);
  }

  /// `generate_square_legal` agrees with the legal move list: `end` is a
  /// destination of `start` exactly when the list has the pair.
  lemma SquareLegalMeaning(tables: CT.Build, p: Position, start: Square, end: Square)
    requires Ready(tables, p)
    ensures end in SquareLegal(tables, p, start) <==> Lists(LegalEntries(tables, p), start, end)
  {
    if |p.checkers| <= 1 {
      ListsAllEntries(tables, p, p.checkers != EMPTY, start, end);
    }
  }

  /// `generate_square_legal`, computed loop by loop for the one square.
  method GenerateSquareLegal(tables: CT.Build, p: Position, start: Square) returns (targets: BitBoard)
    requires Ready(tables, p)
    ensures targets == SquareLegal(tables, p, start)
  {
    var inCheck := !IsEmpty(p.checkers);
    if Popcnt(p.checkers) > 1 {
      targets := KingMoveTargetsOf(tables, p, start, inCheck);
    } else {
      targets := EveryLoopTargets(tables, p, start, inCheck);
    }
  }

  /// The king's part of `generate_square_legal`.
  method KingMoveTargetsOf(tables: CT.Build, p: Position, start: Square, inCheck: bool) returns (king: BitBoard)
    requires Ready(tables, p)
    ensures king == KingPart(tables, p, start, inCheck)
  {
    king := EMPTY;
    if start == KingSquare(p, p.turn) {
      king := KingMoveTargets(tables, p, false, inCheck);
    }
  }

  /// The five loops' parts of `generate_square_legal`, in their order.
  method EveryLoopTargets(tables: CT.Build, p: Position, start: Square, inCheck: bool) returns (targets: BitBoard)
    requires Ready(tables, p) && (inCheck ==> p.checkers != EMPTY)
    ensures targets == MoverPart(tables, p, Pawns, start, inCheck) + MoverPart(tables, p, Knights, start, inCheck)
      + KingPart(tables, p, start, inCheck)
      + MoverPart(tables, p, Bishops, start, inCheck) + MoverPart(tables, p, Rooks, start, inCheck)
  {
    var king := KingMoveTargetsOf(tables, p, start, inCheck);
    targets := MoverPart(tables, p, Pawns, start, inCheck) + MoverPart(tables, p, Knights, start, inCheck)
      + king + MoverPart(tables, p, Bishops, start, inCheck) + MoverPart(tables, p, Rooks, start, inCheck);
  }

  /// `is_legal`: the destinations `generate_square_legal` finds for
  /// `start` include `end`; exactly the pairs of the legal move list.
  method IsLegal(tables: CT.Build, p: Position, start: Square, end: Square) returns (legal: bool)
    requires Ready(tables, p)
    ensures legal <==> Lists(LegalEntries(tables, p), start, end)
  {
    var targets := GenerateSquareLegal(tables, p, start);
    SquareLegalMeaning(tables, p, start, end);
    legal := Contains(targets, end);
  }

  // ---------------------------------------------------------------------
  // Creating moves.

  /// What `create_promotion_move` returns when `entries` is the legal
  /// move list: an error for an unlisted pair, otherwise the classified
  /// move with `target` as the promotion piece.
  function Created(entries: seq<PieceMoves>, p: Position, start: Square, end: Square, target: PieceType)
    : (r: Result<Move, MoveCreationError>)
    requires WellFormed(p) && OwnEntries(p, entries)
    ensures r.Ok? <==> Lists(entries, start, end)
    ensures r.Ok? ==> start in ColorOccupancy(p, p.turn) && r.value.start == start && r.value.end == end
  {
    if !Lists(entries, start, end) then Err(MoveCreationError)
    else
      ListedOwn(p, entries, start, end);
      Ok(Classify(p, start, end, target))
  }

  /// `create_promotion_move`: fails exactly when the pair is not legal,
  /// and otherwise builds the move.
  method CreatePromotionMove(tables: CT.Build, p: Position, start: Square, end: Square, target: PieceType)
    returns (r: Result<Move, MoveCreationError>)
    requires Ready(tables, p)
    ensures OwnEntries(p, LegalEntries(tables, p))
    ensures r == Created(LegalEntries(tables, p), p, start, end, target)
  {
    GeneratedLocated(tables, p, false);
    var legal := IsLegal(tables, p, start, end);
    if !legal {
      return Err(MoveCreationError);
    }
    ListedOwn(p, LegalEntries(tables, p), start, end);
    r := Ok(Classify(p, start, end, target));
  }

  /// `create_move`: `create_promotion_move` promoting to a queen.
  method CreateMove(tables: CT.Build, p: Position, start: Square, end: Square)
    returns (r: Result<Move, MoveCreationError>)
    requires Ready(tables, p)
    ensures OwnEntries(p, LegalEntries(tables, p))
    ensures r == Created(LegalEntries(tables, p), p, start, end, Queen)
  {
    r := CreatePromotionMove(tables, p, start, end, Queen);
  }

  // ---------------------------------------------------------------------
  // Move strings.

  /// The letters a five-character move string may end in, and the pieces
  /// they promote to.
  function PromotionChar(c: char): (r: Option<PieceType>)
    ensures r.Some? <==> c in "nbrq"
    ensures r.Some? ==> Pieces.ToChar(r.value) == c && r.value != Pawn && r.value != King
  {
    match c
    case 'n' => Some(Knight)
    case 'b' => Some(Bishop)
    case 'r' => Some(Rook)
    case 'q' => Some(Queen)
    case _ => None
  }

  /// `Square::from_string` on the two bytes at `i`, which the source
  /// slices at character boundaries: two ASCII bytes name the square their
  /// characters name, and a single two-byte character names none.
  function SquareAt(bytes: seq<Utf8.Byte>, i: nat): (r: Result<Square, ()>)
    requires i + 2 <= |bytes|
    ensures r.Ok? <==> 'a' as int <= bytes[i] <= 'h' as int && '1' as int <= bytes[i + 1] <= '8' as int
    ensures r.Ok? ==> Utf8.Encode(ToString(r.value)) == bytes[i..i + 2]
  {
    if bytes[i] < 0x80 && bytes[i + 1] < 0x80 then
      var name := [bytes[i] as char, bytes[i + 1] as char];
      var r := FromString(name);
      if r.Err? then r
      else
        ParsedStringRoundTrip(name);
        Utf8.AsciiEncoding(name);
        assert Utf8.Encode(name) == bytes[i..i + 2];
        r
    else Err(())
  }

  /// A promotion letter is one ASCII byte: its piece's letter encodes
  /// back to it.
  lemma PromotionByte(b: Utf8.Byte)
    requires PromotionChar(b as char).Some?
    ensures Utf8.Encode([Pieces.ToChar(PromotionChar(b as char).value)]) == [b]
  {
    Utf8.AsciiEncoding([b as char]);
  }

  /// The strings on which `create_str_move` panics: the slice of the
  /// first square name ends inside a character, or, that name read, the
  /// slice of the second one does.
  predicate SplitsCharacter(str: string)
  {
    var bytes := Utf8.Encode(str);
    |bytes| >= 4 && (!Utf8.Boundary(bytes, 2) || (SquareAt(bytes, 0).Ok? && !Utf8.Boundary(bytes, 4)))
  }

  /// The bytes `create_str_move` can read: two square names, and, when
  /// there are exactly five bytes, a promotion letter. Four, or six or
  /// more, bytes read as their first four.
  predicate MoveTextShape(bytes: seq<Utf8.Byte>)
  {
    |bytes| >= 4
    && 'a' as int <= bytes[0] <= 'h' as int && '1' as int <= bytes[1] <= '8' as int
    && 'a' as int <= bytes[2] <= 'h' as int && '1' as int <= bytes[3] <= '8' as int
    && (|bytes| == 5 ==> bytes[4] as char in "nbrq")
  }

  /// What a move string asks for: two squares and a promotion piece.
  datatype MoveRequest = MoveRequest(start: Square, end: Square, target: PieceType)

  /// The reading half of `create_str_move`, on the string's UTF-8
  /// bytes: None for badly formed bytes; otherwise the squares the first
  /// four bytes name and the piece the fifth names when there are exactly
  /// five, a queen otherwise.
  function ReadMoveText(bytes: seq<Utf8.Byte>): (r: Option<MoveRequest>)
    ensures r.Some? <==> MoveTextShape(bytes)
    ensures r.Some? ==> Utf8.Encode(ToString(r.value.start)) == bytes[0..2]
    ensures r.Some? ==> Utf8.Encode(ToString(r.value.end)) == bytes[2..4]
    ensures r.Some? && |bytes| == 5 ==> Utf8.Encode([Pieces.ToChar(r.value.target)]) == bytes[4..5]
    ensures r.Some? && |bytes| != 5 ==> r.value.target == Queen
  {
    if |bytes| < 4 then None
    else
      var start := SquareAt(bytes, 0);
      var end := SquareAt(bytes, 2);
      if start.Err? || end.Err? then None
      else if |bytes| == 5 && PromotionChar(bytes[4] as char).None? then None
      else if |bytes| == 5 then
        var target := PromotionChar(bytes[4] as char).value;
        PromotionByte(bytes[4]);
        assert bytes[4..5] == [bytes[4]];
        Some(MoveRequest(start.value, end.value, target))
      else
        Some(MoveRequest(start.value, end.value, Queen))
  }

  /// What `create_str_move` returns: `InvalidMove` for a badly formed
  /// string, otherwise what `create_promotion_move` gives for the request,
  /// its error becoming `IllegalMove`.
  function StrMove(entries: seq<PieceMoves>, p: Position, str: string): (r: Result<Move, StrMoveCreationError>)
    requires WellFormed(p) && OwnEntries(p, entries)
    ensures r == Err(InvalidMove) <==> !MoveTextShape(Utf8.Encode(str))
    ensures r == Err(IllegalMove) <==>
      MoveTextShape(Utf8.Encode(str))
      && !Lists(entries, ReadMoveText(Utf8.Encode(str)).value.start, ReadMoveText(Utf8.Encode(str)).value.end)
  {
    match ReadMoveText(Utf8.Encode(str))
    case None => Err(InvalidMove)
    case Some(request) =>
      match Created(entries, p, request.start, request.end, request.target)
      case Ok(mv) => Ok(mv)
      case Err(_) => Err(IllegalMove)
  }

  /// `create_str_move`, on the string's UTF-8 bytes. The source panics
  /// when a square name's slice ends inside a character.
  method CreateStrMove(tables: CT.Build, p: Position, str: string) returns (r: Result<Move, StrMoveCreationError>)
    requires Ready(tables, p) && !SplitsCharacter(str)
    ensures OwnEntries(p, LegalEntries(tables, p))
    ensures r == StrMove(LegalEntries(tables, p), p, str)
  {
    GeneratedLocated(tables, p, false);
    var bytes := Utf8.Encode(str);
    var request := ReadMoveText(bytes);
    if request.None? {
      return Err(InvalidMove);
    }
    var created;
    if |bytes| == 5 {
      created := CreatePromotionMove(tables, p, request.value.start, request.value.end, request.value.target);
    } else {
      created := CreateMove(tables, p, request.value.start, request.value.end);
    }
    if created.Err? {
      return Err(IllegalMove);
    }
    r := Ok(created.value);
  }

  /// `Display` for `Move`: the start and end square names, followed by
  /// the promotion letter for a promotion.
  function MoveText(mv: Move): (text: string)
    ensures |text| == if IsPromotion(mv) then 5 else 4
    ensures text[0..2] == ToString(mv.start) && text[2..4] == ToString(mv.end)
  {
    var squares := ToString(mv.start) + ToString(mv.end);
    if IsPromotion(mv) then squares + [Pieces.ToChar(mv.target)] else squares
  }

  /// A move's text is ASCII: one byte per character, the first four
  /// naming its squares and the fifth, for a promotion, its piece letter.
  lemma TextBytes(mv: Move)
    ensures |Utf8.Encode(MoveText(mv))| == |MoveText(mv)|
    ensures SquareAt(Utf8.Encode(MoveText(mv)), 0) == Ok(mv.start)
    ensures SquareAt(Utf8.Encode(MoveText(mv)), 2) == Ok(mv.end)
    ensures IsPromotion(mv) ==> Utf8.Encode(MoveText(mv))[4] as char == Pieces.ToChar(mv.target)
  {
    var text := MoveText(mv);
    StringRoundTrip(mv.start);
    StringRoundTrip(mv.end);
    assert text[0] == ToString(mv.start)[0] && text[1] == ToString(mv.start)[1];
    assert text[2] == ToString(mv.end)[0] && text[3] == ToString(mv.end)[1];
    assert Utf8.Ascii(text);
    Utf8.AsciiEncoding(text);
    var bytes := Utf8.Encode(text);
    assert [bytes[0] as char, bytes[1] as char] == ToString(mv.start);
    assert [bytes[2] as char, bytes[3] as char] == ToString(mv.end);
  }

  /// No slice of a move's text splits a character, and reading it gives
  /// back its squares, and its promotion piece for a promotion to a piece
  /// with a letter, a queen otherwise.
  lemma TextReads(mv: Move)
    requires IsPromotion(mv) ==> mv.target in {Knight, Bishop, Rook, Queen}
    ensures !SplitsCharacter(MoveText(mv))
    ensures ReadMoveText(Utf8.Encode(MoveText(mv))) == Some(MoveRequest(mv.start, mv.end, if IsPromotion(mv) then mv.target else Queen))
  {
    TextBytes(mv);
    var bytes := Utf8.Encode(MoveText(mv));
    if IsPromotion(mv) {
      assert PromotionChar(bytes[4] as char) == Some(mv.target);
    }
  }

  /// The bytes of a string of ASCII characters followed by an 'é': the
  /// characters' codes, then 0xC3 and 0xA9.
  lemma AcuteTail(s: string)
    requires Utf8.Ascii(s)
    ensures Utf8.Encode(s + "\U{e9}") == Utf8.Encode(s) + [0xC3, 0xA9]
    ensures |Utf8.Encode(s)| == |s|
  {
    var acute := "\U{e9}";
    assert Utf8.Encode(acute) == [0xC3, 0xA9] by {
      assert Utf8.EncodeChar(acute[0]) == [0xC3, 0xA9];
      assert acute[1..] == [];
    }
    Utf8.AsciiEncoding(s);
    Utf8.EncodeAppend(s, acute);
  }

  /// Bytes, not characters: "e2e4é" has six bytes, not five, so it reads
  /// as the plain move e2e4 (squares 12 and 28), not as a bad promotion.
  lemma SixBytesReadAsFour()
    ensures ReadMoveText(Utf8.Encode("e2e4\U{e9}")) == ReadMoveText(Utf8.Encode("e2e4")) == Some(MoveRequest(12, 28, Queen))
  {
    Utf8.AsciiEncoding("e2e4");
    AcuteTail("e2e4");
    assert "e2e4" + "\U{e9}" == "e2e4\U{e9}";
    var plain := Utf8.Encode("e2e4");
    var long := Utf8.Encode("e2e4\U{e9}");
    assert long[..4] == plain;
    assert SquareAt(long, 0) == SquareAt(plain, 0) == Ok(12);
    assert SquareAt(long, 2) == SquareAt(plain, 2) == Ok(28);
  }

  /// In "e2eé" the slice of the second square name ends inside the 'é'.
  lemma SecondSliceSplitsAcute()
    ensures SplitsCharacter("e2e\U{e9}")
  {
    Utf8.AsciiEncoding("e2e");
    AcuteTail("e2e");
    assert "e2e" + "\U{e9}" == "e2e\U{e9}";
    var short := Utf8.Encode("e2e\U{e9}");
    assert short == [0x65, 0x32, 0x65, 0xC3, 0xA9];
    assert SquareAt(short, 0) == Ok(12);
  }

  /// Every move `create_promotion_move` builds with a promotion piece of
  /// the string alphabet is read back from its text by `create_str_move`,
  /// which does not panic on it.
  lemma TextRoundTrip(entries: seq<PieceMoves>, p: Position, start: Square, end: Square, target: PieceType)
    requires WellFormed(p) && OwnEntries(p, entries) && Lists(entries, start, end)
    requires target in {Knight, Bishop, Rook, Queen}
    ensures !SplitsCharacter(MoveText(Created(entries, p, start, end, target).value))
    ensures StrMove(entries, p, MoveText(Created(entries, p, start, end, target).value))
      == Ok(Created(entries, p, start, end, target).value)
  {
    var mv := Created(entries, p, start, end, target).value;
    TextReads(mv);
    if !IsPromotion(mv) {
      ClassifyTarget(p, start, end, target, Queen);
    }
  }
}
