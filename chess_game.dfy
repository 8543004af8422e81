// A game of chess (src/chess_game.rs): a board, the legal moves on it,
// the table of footprints that counts repetitions, the moves made and the
// result. `make_move` plays a move and then runs the draw and mate rules
// in a fixed order, each rule that matches overwriting the result.
module ChessGames {
  import opened Wrappers
  import opened Squares
  import opened BitBoards
  import opened Colors
  import opened Pieces
  import opened Positions
  import opened Generator
  import opened MoveGens
  import opened MoveIterators
  import opened ChessBoards
  import opened SquareColors
  import Fen
  import Perfts
  import CT = ChessboardTables

  /// `DrawReason`.
  datatype DrawReason = InsufficientMaterial | Stalemate | ThreefoldRepetition | FiftyMoves

  /// `GameResult`.
  datatype GameResult = WhiteWins | BlackWins | Draw(reason: DrawReason)

  // ---------------------------------------------------------------------
  // Repetitions.

  /// How often each footprint occurs in `seen`.
  function Tally(seen: seq<Footprint>): (t: map<Footprint, nat>)
    ensures forall f :: f in t <==> f in seen
    ensures forall f :: f in t ==> t[f] == multiset(seen)[f] > 0
  {
    map f | f in seen :: multiset(seen)[f]
  }

  /// The repetition table after a move: cleared unless the move is quiet,
  /// then the new footprint counted once more, or entered with a count of
  /// one.
  function Recorded(history: map<Footprint, nat>, mv: Move, f: Footprint): (h: map<Footprint, nat>)
    ensures f in h && h.Keys == (if mv.Quiet? then history.Keys else {}) + {f}
  {
    var kept := if mv.Quiet? then history else map[];
    if f in kept then kept[f := kept[f] + 1] else kept[f := 1]
  }

  /// Counting one more footprint: its count goes up by one, or it is
  /// entered with a count of one.
  lemma TallyAppend(seen: seq<Footprint>, f: Footprint)
    ensures Tally(seen + [f]) == var t := Tally(seen); if f in t then t[f := t[f] + 1] else t[f := 1]
  {
    var after := seen + [f];
    assert multiset(after) == multiset(seen) + multiset{f};
    forall g | g in after ensures g in seen || g == f {
      var i :| 0 <= i < |after| && after[i] == g;
      if i < |seen| {
        assert seen[i] == g;
      }
    }
  }

  /// The table keeps counting what it counted: recording a move on the
  /// tally of the footprints since the last move that was not quiet is
  /// the tally of those footprints with the new one added, after a quiet
  /// move, and of the new one alone otherwise.
  lemma RecordedTally(seen: seq<Footprint>, mv: Move, f: Footprint)
    ensures Recorded(Tally(seen), mv, f) == Tally((if mv.Quiet? then seen else []) + [f])
  {
    var kept := if mv.Quiet? then seen else [];
    assert Tally(kept) == (if mv.Quiet? then Tally(seen) else map[]);
    TallyAppend(kept, f);
  }

  /// The count `make_move` checks for three: the new footprint's count
  /// once the move is recorded.
  function RepeatCount(history: map<Footprint, nat>, mv: Move, f: Footprint): (count: nat)
    ensures count > 0
  {
    Recorded(history, mv, f)[f]
  }

  /// On a tally, the count checked is the number of times the new
  /// footprint occurs since the last move that was not quiet, itself
  /// included: a threefold repetition is a third occurrence.
  lemma RepeatCountMeaning(seen: seq<Footprint>, mv: Move, f: Footprint)
    ensures RepeatCount(Tally(seen), mv, f) == multiset((if mv.Quiet? then seen else []) + [f])[f]
  {
    RecordedTally(seen, mv, f);
  }

  // ---------------------------------------------------------------------
  // Insufficient material.

  /// The insufficient-material test of `make_move`, branch for branch:
  /// lone kings; one side a lone king and the other with one more piece, a
  /// bishop or a knight; both sides with two pieces, a white bishop on a
  /// white square and a black one on a white square, or else a white
  /// bishop on a black square and a black one on a black square.
  predicate MaterialDraw(p: Position)
    requires WellFormed(p)
  {
    var white := Popcnt(ColorOccupancy(p, White));
    var black := Popcnt(ColorOccupancy(p, Black));
    if white == 1 then
      if black == 1 then true
      else if black == 2 then Query(p, Bishop, Black) != EMPTY || Query(p, Knight, Black) != EMPTY
      else false
    else if white == 2 then
      if black == 2 then
        if Overlaps(Query(p, Bishop, White), WHITE_SQUARES) then Overlaps(Query(p, Bishop, Black), WHITE_SQUARES)
        else if Overlaps(Query(p, Bishop, White), BLACK_SQUARES) then Overlaps(Query(p, Bishop, Black), BLACK_SQUARES)
        else false
      else if black == 1 then Query(p, Bishop, White) != EMPTY || Query(p, Knight, White) != EMPTY
      else false
    else false
  }

  /// `c` has its king and nothing else.
  predicate LoneKing(p: Position, c: Color)
    requires WellFormed(p)
  {
    ColorOccupancy(p, c) == Query(p, King, c)
  }

  /// `c` has its king and one piece of kind `kind` on `s`.
  predicate KingAnd(p: Position, c: Color, kind: PieceType, s: Square)
    requires WellFormed(p)
  {
    s in Query(p, kind, c) && s !in Query(p, King, c) && ColorOccupancy(p, c) == Query(p, King, c) + {s}
  }

  /// The endings the test is after, stated as a chess player would: king
  /// against king; king and a bishop or a knight against a lone king; and
  /// king and bishop against king and bishop, the two bishops on squares
  /// of the same colour.
  predicate DeadMaterial(p: Position)
    requires WellFormed(p)
  {
    (LoneKing(p, White) && LoneKing(p, Black))
    || (LoneKing(p, White) && exists s: Square :: KingAnd(p, Black, Bishop, s) || KingAnd(p, Black, Knight, s))
    || (LoneKing(p, Black) && exists s: Square :: KingAnd(p, White, Bishop, s) || KingAnd(p, White, Knight, s))
    || (exists s: Square, t: Square ::
          KingAnd(p, White, Bishop, s) && KingAnd(p, Black, Bishop, t) && SquareColor(s) == SquareColor(t))
  }

  /// Each side has exactly one king.
  predicate OneKingEach(p: Position)
    requires WellFormed(p)
  {
    |Query(p, King, White)| == 1 && |Query(p, King, Black)| == 1
  }

  /// A subset as large as its superset is the superset.
  lemma SubsetSameSize(a: BitBoard, b: BitBoard)
    requires a <= b && |a| == |b|
    ensures a == b
  {
    assert b == a + (b - a) && a * (b - a) == {};
    assert |b - a| == 0;
  }

  /// With one king, a side of one piece is its lone king.
  lemma OnePiece(p: Position, c: Color)
    requires WellFormed(p) && |Query(p, King, c)| == 1 && |ColorOccupancy(p, c)| == 1
    ensures LoneKing(p, c)
  {
    SubsetSameSize(Query(p, King, c), ColorOccupancy(p, c));
  }

  /// With one king, a side of two pieces is its king and one more piece,
  /// of the kind its board holds on that square.
  lemma TwoPieces(p: Position, c: Color) returns (s: Square)
    requires WellFormed(p) && Placement(p) && |Query(p, King, c)| == 1 && |ColorOccupancy(p, c)| == 2
    ensures ColorOccupancy(p, c) == Query(p, King, c) + {s} && s !in Query(p, King, c)
    ensures forall kind: PieceType :: kind != King ==> Query(p, kind, c) <= {s}
  {
    var king :| king in Query(p, King, c);
    assert Query(p, King, c) == {king} by {
      SubsetSameSize({king}, Query(p, King, c));
    }
    var others := ColorOccupancy(p, c) - {king};
    assert |others| == 1;
    s :| s in others;
    SubsetSameSize({s}, others);
    forall kind: PieceType | kind != King ensures Query(p, kind, c) <= {s} {
      forall x | x in Query(p, kind, c) ensures x == s {
        assert x in p.pieceBbs[Pieces.Index(kind)];
      }
    }
  }

  /// A one-square board overlaps `WHITE_SQUARES` when the square is white
  /// and `BLACK_SQUARES` when it is black.
  lemma SingleSquareColor(s: Square)
    ensures Overlaps({s}, WHITE_SQUARES) <==> SquareColor(s) == White
    ensures Overlaps({s}, BLACK_SQUARES) <==> SquareColor(s) == Black
  {
    SquareColorConstants();
    WhiteSquare(s);
    assert FromSquare(s) == {s};
    if s in WHITE_SQUARES {
      assert s in {s} * WHITE_SQUARES;
      assert {s} * BLACK_SQUARES == EMPTY;
    } else {
      assert s in {s} * BLACK_SQUARES;
      assert {s} * WHITE_SQUARES == EMPTY;
    }
  }

  /// A side whose bishops can only stand on `s` overlaps `WHITE_SQUARES`
  /// with them when it has a bishop on a white `s`, and `BLACK_SQUARES`
  /// when it has one on a black `s`.
  lemma BishopSquare(p: Position, c: Color, s: Square)
    requires WellFormed(p) && Query(p, Bishop, c) <= {s}
    ensures Overlaps(Query(p, Bishop, c), WHITE_SQUARES) <==> s in Query(p, Bishop, c) && SquareColor(s) == White
    ensures Overlaps(Query(p, Bishop, c), BLACK_SQUARES) <==> s in Query(p, Bishop, c) && SquareColor(s) == Black
  {
    SingleSquareColor(s);
    var bishops := Query(p, Bishop, c);
    if s in bishops {
      assert bishops == {s};
    } else {
      assert bishops == EMPTY;
      assert !Overlaps(bishops, WHITE_SQUARES) && !Overlaps(bishops, BLACK_SQUARES);
    }
  }

  /// With two pieces a side, the branch test on the bishops is the
  /// same-colour test.
  lemma BishopsBranch(p: Position, s: Square, t: Square)
    requires WellFormed(p) && Query(p, Bishop, White) <= {s} && Query(p, Bishop, Black) <= {t}
    ensures
      (if Overlaps(Query(p, Bishop, White), WHITE_SQUARES) then Overlaps(Query(p, Bishop, Black), WHITE_SQUARES)
       else if Overlaps(Query(p, Bishop, White), BLACK_SQUARES) then Overlaps(Query(p, Bishop, Black), BLACK_SQUARES)
       else false)
      <==> (s in Query(p, Bishop, White) && t in Query(p, Bishop, Black) && SquareColor(s) == SquareColor(t))
  {
    BishopSquare(p, White, s);
    BishopSquare(p, Black, t);
  }

  /// The lone king against king and one more piece: the branch test is
  /// the test for a bishop or a knight.
  lemma MinorBranch(p: Position, lone: Color, s: Square)
    requires WellFormed(p) && Placement(p) && OneKingEach(p)
    requires ColorOccupancy(p, Opposite(lone)) == Query(p, King, Opposite(lone)) + {s}
    requires s !in Query(p, King, Opposite(lone))
    requires forall kind: PieceType :: kind != King ==> Query(p, kind, Opposite(lone)) <= {s}
    ensures (Query(p, Bishop, Opposite(lone)) != EMPTY || Query(p, Knight, Opposite(lone)) != EMPTY)
      <==> (KingAnd(p, Opposite(lone), Bishop, s) || KingAnd(p, Opposite(lone), Knight, s))
  {
    var other := Opposite(lone);
    assert Query(p, Bishop, other) <= {s} && Query(p, Knight, other) <= {s};
    if Query(p, Bishop, other) != EMPTY {
      var x :| x in Query(p, Bishop, other);
      assert x == s;
    }
    if Query(p, Knight, other) != EMPTY {
      var x :| x in Query(p, Knight, other);
      assert x == s;
    }
  }

  /// A side that is a lone king, or its king and one piece, has one or
  /// two pieces.
  lemma SideSizes(p: Position, c: Color)
    requires WellFormed(p) && |Query(p, King, c)| == 1
    ensures LoneKing(p, c) ==> |ColorOccupancy(p, c)| == 1
    ensures forall kind: PieceType, s: Square :: KingAnd(p, c, kind, s) ==> |ColorOccupancy(p, c)| == 2
  {
  }

  /// A lone king against king and one more piece: the ending is dead
  /// exactly when that piece is a bishop or a knight.
  lemma MinorCase(p: Position, lone: Color)
    requires WellFormed(p) && Placement(p) && OneKingEach(p)
    requires |ColorOccupancy(p, lone)| == 1 && |ColorOccupancy(p, Opposite(lone))| == 2
    ensures DeadMaterial(p)
      <==> (Query(p, Bishop, Opposite(lone)) != EMPTY || Query(p, Knight, Opposite(lone)) != EMPTY)
  {
    var other := Opposite(lone);
    assert Opposite(White) == Black && Opposite(Black) == White;
    OnePiece(p, lone);
    var s := TwoPieces(p, other);
    MinorBranch(p, lone, s);
    assert !LoneKing(p, other);
    SideSizes(p, lone);
    assert KingAnd(p, other, Bishop, s) || KingAnd(p, other, Knight, s) ==> DeadMaterial(p);
    if lone == White {
      assert DeadMaterial(p) ==> LoneKing(p, White) && exists x: Square :: KingAnd(p, Black, Bishop, x) || KingAnd(p, Black, Knight, x);
    } else {
      assert DeadMaterial(p) ==> LoneKing(p, Black) && exists x: Square :: KingAnd(p, White, Bishop, x) || KingAnd(p, White, Knight, x);
    }
  }

  /// Two pieces a side: the ending is dead exactly when the bishop test
  /// of `make_move` passes.
  lemma BishopsCase(p: Position)
    requires WellFormed(p) && Placement(p) && OneKingEach(p)
    requires |ColorOccupancy(p, White)| == 2 && |ColorOccupancy(p, Black)| == 2
    ensures DeadMaterial(p) <==>
      if Overlaps(Query(p, Bishop, White), WHITE_SQUARES) then Overlaps(Query(p, Bishop, Black), WHITE_SQUARES)
      else if Overlaps(Query(p, Bishop, White), BLACK_SQUARES) then Overlaps(Query(p, Bishop, Black), BLACK_SQUARES)
      else false
  {
    var s := TwoPieces(p, White);
    var t := TwoPieces(p, Black);
    assert !LoneKing(p, White) && !LoneKing(p, Black);
    BishopsBranch(p, s, t);
    if DeadMaterial(p) {
      var x, y :| KingAnd(p, White, Bishop, x) && KingAnd(p, Black, Bishop, y) && SquareColor(x) == SquareColor(y);
      assert x == s && y == t;
    }
  }

  /// The test of `make_move` finds exactly the dead endings, on boards
  /// laid out as the crate lays them out with one king a side.
  lemma MaterialDrawMeaning(p: Position)
    requires WellFormed(p) && Placement(p) && OneKingEach(p)
    ensures MaterialDraw(p) <==> DeadMaterial(p)
  {
    var white := |ColorOccupancy(p, White)|;
    var black := |ColorOccupancy(p, Black)|;
    SideSizes(p, White);
    SideSizes(p, Black);
    if white == 1 && black == 1 {
      OnePiece(p, White);
      OnePiece(p, Black);
    } else if white == 1 && black == 2 {
      MinorCase(p, White);
    } else if white == 2 && black == 1 {
      MinorCase(p, Black);
    } else if white == 2 && black == 2 {
      BishopsCase(p);
    }
  }

  // ---------------------------------------------------------------------
  // The result.

  /// The result `make_move` leaves on the board `p` it reached: the prior
  /// result, overwritten in turn by a threefold repetition, by mate or
  /// stalemate when no move is left, by the fifty-move rule at 50
  /// half-moves, and by insufficient material.
  function Outcome(prior: Option<GameResult>, count: nat, p: Position, stuck: bool): (r: Option<GameResult>)
    requires WellFormed(p)
    ensures MaterialDraw(p) ==> r == Some(Draw(InsufficientMaterial))
    ensures !MaterialDraw(p) && p.halfMoveClock >= 50 ==> r == Some(Draw(FiftyMoves))
    ensures !MaterialDraw(p) && p.halfMoveClock < 50 && stuck ==>
      r == Some(if p.checkers == EMPTY then Draw(Stalemate) else if p.turn == White then BlackWins else WhiteWins)
    ensures !MaterialDraw(p) && p.halfMoveClock < 50 && !stuck && count == 3 ==> r == Some(Draw(ThreefoldRepetition))
    ensures !MaterialDraw(p) && p.halfMoveClock < 50 && !stuck && count != 3 ==> r == prior
  {
    var repeated := if count == 3 then Some(Draw(ThreefoldRepetition)) else prior;
    var ended :=
      if !stuck then repeated
      else if IsEmpty(p.checkers) then Some(Draw(Stalemate))
      else Some(if p.turn == White then BlackWins else WhiteWins);
    var clocked := if p.halfMoveClock >= 50 then Some(Draw(FiftyMoves)) else ended;
    if MaterialDraw(p) then Some(Draw(InsufficientMaterial)) else clocked
  }

  /// Mate is not final: a mate given at 50 half-moves or more is recorded
  /// as a fifty-move draw, since that rule runs after the mate test.
  lemma FiftyMovesOverridesMate(prior: Option<GameResult>, count: nat, p: Position)
    requires WellFormed(p) && !MaterialDraw(p) && p.checkers != EMPTY && p.halfMoveClock >= 50
    ensures Outcome(prior, count, p, true) == Some(Draw(FiftyMoves))
  {
  }

  // ---------------------------------------------------------------------
  // The game.

  /// What a game keeps about its board `p`: it can be asked for moves,
  /// `moves` are its legal moves, and `history` tallies `seen`, the
  /// footprints since the last move that was not quiet, which end with
  /// the board's own.
  ghost predicate GameInvariant(tables: CT.Build, p: Position, moves: seq<Move>,
    history: map<Footprint, nat>, seen: seq<Footprint>)
  {
    && Ready(tables, p) && moves == Perfts.LegalMoves(tables, p)
    && history == Tally(seen) && seen != [] && seen[|seen| - 1] == FootprintOf(p)
  }

  /// `MoveGen::legal(..).to_vec()`: the legal moves of a board, in the
  /// order the iterator yields them.
  method LegalMoveList(tables: CT.Build, p: Position) returns (moves: seq<Move>)
    requires Ready(tables, p)
    ensures moves == Perfts.LegalMoves(tables, p)
  {
    var movegen := new MoveGen(tables, p, false);
    moves := movegen.ToVec();
  }

  /// A board reached by a move that can be made can be asked for moves.
  lemma PlayReady(tables: CT.Build, p: Position, mv: Move)
    requires Ready(tables, p) && CanMake(p, mv)
    ensures Ready(tables, Play(p, mv))
  {
    var r := Play(p, mv);
    assert r.pieceBbs == Moved(p, mv).pieceBbs && r.colorBbs == Moved(p, mv).colorBbs;
  }

  /// The repetition block of `make_move`: the history is cleared unless
  /// the move is quiet and counts `footprint` once more; a third
  /// occurrence draws.
  method Repetition(history: map<Footprint, nat>, mv: Move, footprint: Footprint, prior: Option<GameResult>)
    returns (table: map<Footprint, nat>, outcome: Option<GameResult>)
    ensures table == Recorded(history, mv, footprint)
    ensures outcome == if RepeatCount(history, mv, footprint) == 3 then Some(Draw(ThreefoldRepetition)) else prior
  {
    table := history;
    if !mv.Quiet? {
      table := map[];
    }
    outcome := prior;
    if footprint in table {
      var repeats := table[footprint] + 1;
      table := table[footprint := repeats];
      if repeats == 3 {
        outcome := Some(Draw(ThreefoldRepetition));
      }
    } else {
      table := table[footprint := 1];
    }
  }

  /// The end-of-game block of `make_move`, run on the board `p` reached
  /// with its legal moves, after the repetition test left `repeated`.
  method EndRules(repeated: Option<GameResult>, ghost prior: Option<GameResult>, ghost count: nat,
    p: Position, moves: seq<Move>) returns (outcome: Option<GameResult>)
    requires WellFormed(p)
    requires repeated == if count == 3 then Some(Draw(ThreefoldRepetition)) else prior
    ensures outcome == Outcome(prior, count, p, moves == [])
  {
    outcome := repeated;
    if |moves| == 0 {
      if IsEmpty(p.checkers) {
        outcome := Some(Draw(Stalemate));
      } else {
        outcome := Some(if p.turn == White then BlackWins else WhiteWins);
      }
    }
    if p.halfMoveClock >= 50 {
      outcome := Some(Draw(FiftyMoves));
    }
    if MaterialDraw(p) {
      outcome := Some(Draw(InsufficientMaterial));
    }
  }

  class ChessGame {
    var state: ChessBoard
    var positionMoves: seq<Move>
    var history: map<Footprint, nat>
    var startFen: string
    var madeMoves: seq<Move>
    var result: Option<GameResult>
    /// The footprints since the last move that was not quiet, the
    /// current one last: what `history` counts.
    ghost var sinceReset: seq<Footprint>

    /// The board's arrays are laid out as the struct's, and the game's
    /// fields keep `GameInvariant` with it.
    ghost predicate Valid()
      reads this, state, state.pieceBbs, state.colorBbs
    {
      state.Valid() && GameInvariant(state.tables, state.State(), positionMoves, history, sinceReset)
    }

    /// The body of `new` once the board is loaded: the game on `board`,
    /// with its legal moves, a history holding its footprint once, no
    /// moves made and no result.
    constructor (board: ChessBoard)
      requires board.Valid() && Ready(board.tables, board.State())
      ensures Valid() && state == board
      ensures history == map[FootprintOf(state.State()) := 1]
      ensures startFen == Fen.START_FEN && madeMoves == [] && result == None
    {
      ghost var p := board.State();
      var moves := LegalMoveList(board.tables, board.State());
      var footprint := FootprintOf(board.State());
      assert multiset([footprint])[footprint] == 1;
      state := board;
      positionMoves := moves;
      history := map[footprint := 1];
      startFen := Fen.START_FEN;
      madeMoves := [];
      result := None;
      sinceReset := [footprint];
      new;
      assert state.State() == p;
    }

    /// `moves`: the legal moves of the board.
    function Moves(): (moves: seq<Move>)
      requires Valid()
      reads this, state, state.pieceBbs, state.colorBbs
      ensures moves == Perfts.LegalMoves(state.tables, state.State())
    {
      positionMoves
    }

    /// `make_move`: the board plays the move and the move is recorded;
    /// the history is cleared unless the move is quiet, and counts the new
    /// footprint; the legal moves are listed again; then the result is
    /// overwritten rule by rule as `Outcome` states, with the count of the
    /// new footprint as the repetition count.
    method MakeMove(mv: Move)
      requires Valid() && CanMake(state.State(), mv)
      modifies this, state, state.pieceBbs, state.colorBbs
      ensures state == old(state) && startFen == old(startFen) && madeMoves == old(madeMoves) + [mv]
      ensures Valid() && state.State() == Play(old(state.State()), mv)
      ensures history == Recorded(old(history), mv, FootprintOf(state.State()))
      ensures sinceReset == (if mv.Quiet? then old(sinceReset) else []) + [FootprintOf(state.State())]
      ensures result == Outcome(old(result), RepeatCount(old(history), mv, FootprintOf(state.State())),
        state.State(), positionMoves == [])
    {
      ghost var p := state.State();
      state.MakeMove(mv);
      PlayReady(state.tables, p, mv);
      Record(mv);
    }

    /// The rest of `make_move` once the board has moved: the move is
    /// recorded, the history and the legal moves brought up to date and
    /// the end-of-game rules applied.
    method Record(mv: Move)
      requires state.Valid() && Ready(state.tables, state.State()) && history == Tally(sinceReset)
      modifies this
      ensures state == old(state) && startFen == old(startFen) && madeMoves == old(madeMoves) + [mv]
      ensures Valid()
      ensures history == Recorded(old(history), mv, FootprintOf(state.State()))
      ensures sinceReset == (if mv.Quiet? then old(sinceReset) else []) + [FootprintOf(state.State())]
      ensures result == Outcome(old(result), RepeatCount(old(history), mv, FootprintOf(state.State())),
        state.State(), positionMoves == [])
    {
      var footprint := FootprintOf(state.State());
      var moves := LegalMoveList(state.tables, state.State());
      ghost var count := RepeatCount(history, mv, footprint);
      var table, outcome := Repetition(history, mv, footprint, result);
      outcome := EndRules(outcome, result, count, state.State(), moves);
      RecordedTally(sinceReset, mv, footprint);
      Store(madeMoves + [mv], table, moves, outcome, (if mv.Quiet? then sinceReset else []) + [footprint]);
    }

    /// Sets the game's bookkeeping fields; the board and the starting
    /// FEN stay.
    method Store(made: seq<Move>, table: map<Footprint, nat>, moves: seq<Move>,
      outcome: Option<GameResult>, ghost seen: seq<Footprint>)
      requires state.Valid()
      modifies this
      ensures state == old(state) && startFen == old(startFen)
      ensures state.Valid() && state.State() == old(state.State())
      ensures madeMoves == made && history == table && positionMoves == moves
      ensures result == outcome && sinceReset == seen
    {
      madeMoves, history, positionMoves, result, sinceReset := made, table, moves, outcome, seen;
    }

    /// `result`.
    function Result(): (r: Option<GameResult>)
      reads this
      ensures r == result
    {
      result
    }

    /// `is_legal_move`: the pair is in the board's legal move list.
    method IsLegalMove(start: Square, end: Square) returns (legal: bool)
      requires Valid()
      ensures legal <==> Lists(LegalEntries(state.tables, state.State()), start, end)
    {
      legal := IsLegal(state.tables, state.State(), start, end);
    }

    /// `create_move`: `create_promotion_move` with a queen.
    method CreateMove(start: Square, end: Square) returns (r: Result<Move, MoveCreationError>)
      requires Valid()
      ensures OwnEntries(state.State(), LegalEntries(state.tables, state.State()))
      ensures r == Created(LegalEntries(state.tables, state.State()), state.State(), start, end, Queen)
    {
      r := MoveGens.CreateMove(state.tables, state.State(), start, end);
    }

    /// `create_promote_move`.
    method CreatePromoteMove(start: Square, end: Square, target: PieceType) returns (r: Result<Move, MoveCreationError>)
      requires Valid()
      ensures OwnEntries(state.State(), LegalEntries(state.tables, state.State()))
      ensures r == Created(LegalEntries(state.tables, state.State()), state.State(), start, end, target)
    {
      r := CreatePromotionMove(state.tables, state.State(), start, end, target);
    }

    /// `create_str_move`, which panics where the board's does.
    method CreateStrMove(str: string) returns (r: Result<Move, StrMoveCreationError>)
      requires Valid() && !SplitsCharacter(str)
      ensures OwnEntries(state.State(), LegalEntries(state.tables, state.State()))
      ensures r == StrMove(LegalEntries(state.tables, state.State()), state.State(), str)
    {
      r := MoveGens.CreateStrMove(state.tables, state.State(), str);
    }

    /// `board`.
    function Board(): (board: ChessBoard)
      reads this
      ensures board == state
    {
      state
    }
  }

  /// `ChessGame::new`: a game on `ChessBoard::new()`, the board loaded
  /// from `START_FEN`.
  method NewGame(tables: CT.Build) returns (game: ChessGame)
    requires CT.Ready(tables) && Fen.FenOutcome(Fen.START_FEN).Ok?
    ensures fresh(game) && game.Valid()
    ensures game.state.tables == tables && game.state.State() == Fen.FenOutcome(Fen.START_FEN).value
    ensures game.history == map[FootprintOf(game.state.State()) := 1]
    ensures game.startFen == Fen.START_FEN && game.madeMoves == [] && game.result == None
  {
    var board := Fen.NewBoard(tables);
    game := new ChessGame(board);
  }
}
