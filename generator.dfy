// Move generation (src/chessboard/movegen/generator.rs): for every piece
// of the side to move, the squares it may move to, cut down by the check
// mask, the pin axis and king safety, and pushed onto a move list as one
// entry per piece.
module Generator {
  import opened Wrappers
  import opened Squares
  import opened BitBoards
  import opened Colors
  import opened Pieces
  import opened Castling
  import opened Positions
  import opened Attacks
  import opened MoveLists
  import Ranks
  import Files
  import SL = TableGenSliders
  import TableGenConnections
  import CT = ChessboardTables

  /// What the generator unwraps: built lookup tables and a king for the
  /// side to move.
  ghost predicate Ready(tables: CT.Build, p: Position)
  {
    CT.Ready(tables) && WellFormed(p) && Query(p, King, p.turn) != EMPTY
  }

  // ---------------------------------------------------------------------
  // Attack tests.

  /// `is_square_attacked_with_occupancy`: casts from the square the
  /// pattern of a pawn of the other color, of a knight, of a king, of a
  /// bishop and of a rook under `occ`, and tests each against the matching
  /// pieces of `attacker` (queens with both sliders). This finds exactly the
  /// squares a piece of `attacker` attacks when `occ` is what blocks the lines.
  function IsSquareAttackedWithOccupancy(tables: CT.Build, p: Position, square: Square, occ: BitBoard, attacker: Color): (r: bool)
    requires CT.Ready(tables) && WellFormed(p)
    ensures r <==> AttackedWith(p, square, attacker, occ)
  {
    AttackedFrom(p, square, attacker, occ);
    var pawnCheckLocations := CT.GetPawnAttacks(square, Opposite(attacker));
    if Overlaps(Query(p, Pawn, attacker), pawnCheckLocations) then true
    else if Overlaps(Query(p, Knight, attacker), CT.GetKnightAttacks(square)) then true
    else if Overlaps(Query(p, King, attacker), CT.GetKingAttacks(square)) then true
    else if Overlaps(Query(p, Bishop, attacker) + Query(p, Queen, attacker), CT.GetBishopAttacks(tables, square, occ)) then true
    else if Overlaps(Query(p, Rook, attacker) + Query(p, Queen, attacker), CT.GetRookAttacks(tables, square, occ)) then true
    else false
  }

  /// `is_square_attacked`: the same test under the board's occupancy.
  function IsSquareAttacked(tables: CT.Build, p: Position, square: Square, attacker: Color): (r: bool)
    requires CT.Ready(tables) && WellFormed(p)
    ensures r <==> AttackedBy(p, square, attacker)
  {
    IsSquareAttackedWithOccupancy(tables, p, square, Occupancy(p), attacker)
  }

  // ---------------------------------------------------------------------
  // The masks.

  /// The squares that answer a single check: those strictly between the
  /// king and the (lowest) checker, and the checkers.
  function Defending(p: Position): BitBoard
    requires WellFormed(p) && Query(p, King, p.turn) != EMPTY && p.checkers != EMPTY
  {
    var king := KingSquare(p, p.turn);
    var checker := ScanForward(p.checkers).value;
    CT.GetDirectConnection(king, checker) + p.checkers
  }

  /// The piece on `sq` is one of the pinned pieces.
  predicate IsPinned(p: Position, sq: Square)
  {
    Overlaps(FromSquare(sq), p.pinned)
  }

  /// The line through the king and `sq`, along which a pinned piece may
  /// still move.
  function PinAxis(p: Position, sq: Square): BitBoard
    requires WellFormed(p) && Query(p, King, p.turn) != EMPTY
  {
    CT.GetConnectionAxis(KingSquare(p, p.turn), sq)
  }

  // ---------------------------------------------------------------------
  // Pawns.

  /// The rank the pawns of `us` start on.
  function StartRank(us: Color): Ranks.Rank
  {
    if us == White then Ranks.Second else Ranks.Seventh
  }

  /// One rank toward the enemy: `up` for White, `down` for Black.
  function Ahead(b: BitBoard, us: Color): BitBoard
  {
    if us == White then BitBoards.Up(b) else BitBoards.Down(b)
  }

  /// The square one rank toward the enemy, if there is one.
  function AheadSquare(sq: Square, us: Color): Option<Square>
  {
    if us == White then Squares.Up(sq) else Squares.Down(sq)
  }

  /// The pushes of a pawn of `us` on `sq`: the square ahead when it is
  /// empty and, from the start rank, the one beyond it when that too is
  /// empty.
  function PawnPushes(p: Position, sq: Square, us: Color): BitBoard
    requires WellFormed(p)
  {
    var forward := Ahead(FromSquare(sq), us);
    if Overlaps(forward, Occupancy(p)) then EMPTY
    else if Rank(sq) == StartRank(us) then
      var double := Ahead(forward, us);
      if Overlaps(double, Occupancy(p)) then forward else forward + double
    else forward
  }

  /// The en-passant square as a board, empty when there is none.
  function EnPassantBoard(p: Position): (b: BitBoard)
    ensures forall s: Square :: s in b <==> p.enPassant == Some(s)
  {
    match p.enPassant
    case None => EMPTY
    case Some(sq) => FromSquare(sq)
  }

  /// The occupancy once a pawn on `sq` has taken en passant on the squares
  /// of `epBb`: the pawn leaves `sq`, lands on the en-passant square, and
  /// the pawn behind that square is removed.
  function EnPassantOccupancy(p: Position, sq: Square, epBb: BitBoard): BitBoard
    requires WellFormed(p)
  {
    var enPassanted := if p.turn == White then BitBoards.Down(epBb) else BitBoards.Up(epBb);
    Xor(Occupancy(p), FromSquare(sq) + epBb + enPassanted)
  }

  /// The bishop, rook and queen: the pieces that see along lines.
  predicate Slides(k: PieceType)
  {
    k == Bishop || k == Rook || k == Queen
  }

  /// An enemy bishop, rook or queen attacks `square` when `occ` is what
  /// blocks the lines.
  ghost predicate SliderAttacks(p: Position, square: Square, attacker: Color, occ: BitBoard)
    requires WellFormed(p)
  {
    exists t: Square, k: PieceType :: Slides(k) && t in Query(p, k, attacker) && square in AttackSet(k, attacker, t, occ)
  }

  /// Whether the en-passant capture by the pawn on `sq` leaves the king
  /// unseen by the enemy's rooks, bishops and queens.
  function EnPassantKeepsKingSafe(tables: CT.Build, p: Position, sq: Square, epBb: BitBoard): (r: bool)
    requires Ready(tables, p)
  {
    var us := p.turn;
    var them := Opposite(us);
    var king := KingSquare(p, us);
    var newOccupancy := EnPassantOccupancy(p, sq, epBb);
    var bishopCheckSpots := CT.GetBishopAttacks(tables, king, newOccupancy);
    var enemyBishops := Query(p, Bishop, them) + Query(p, Queen, them);
    var rookCheckSpots := CT.GetRookAttacks(tables, king, newOccupancy);
    var enemyRooks := Query(p, Rook, them) + Query(p, Queen, them);
    !Overlaps(enemyRooks, rookCheckSpots) && !Overlaps(enemyBishops, bishopCheckSpots)
  }

  /// The squares a pawn of the side to move on `sq` may move to: its
  /// pushes unless it is pinned off its file (and in captures-only mode
  /// only when in check), its captures along the pin axis unless pinned on
  /// its file; in check these are cut to the defending squares, and only
  /// then is a safe en-passant capture added.
  function PawnTargets(tables: CT.Build, p: Position, sq: Square, capturesOnly: bool, inCheck: bool): BitBoard
    requires Ready(tables, p) && (inCheck ==> p.checkers != EMPTY)
  {
    var us := p.turn;
    var them := Opposite(us);
    var king := KingSquare(p, us);
    var epBb := EnPassantBoard(p);
    var isPinned := IsPinned(p, sq);
    var isPinnedForward := isPinned && File(king) == File(sq);
    var pushes :=
      if (!capturesOnly || inCheck) && (!isPinned || isPinnedForward) then PawnPushes(p, sq, us) else EMPTY;
    var attacks :=
      if isPinned then CT.GetPawnAttacks(sq, us) * PinAxis(p, sq) else CT.GetPawnAttacks(sq, us);
    var captures := if isPinnedForward then EMPTY else attacks * ColorOccupancy(p, them);
    var enPassantMove :=
      if !isPinnedForward && Overlaps(attacks, epBb) && EnPassantKeepsKingSafe(tables, p, sq, epBb) then epBb
      else EMPTY;
    var targets := pushes + captures;
    (if inCheck then targets * Defending(p) else targets) + enPassantMove
  }

  // ---------------------------------------------------------------------
  // Knights, bishops and rooks.

  /// The squares a knight of the side to move on `sq` may move to: in
  /// check the defending squares, in captures-only mode enemy pieces,
  /// otherwise any square not holding a friendly piece.
  function KnightTargets(p: Position, sq: Square, capturesOnly: bool, inCheck: bool): BitBoard
    requires WellFormed(p) && Query(p, King, p.turn) != EMPTY && (inCheck ==> p.checkers != EMPTY)
  {
    var attacks := CT.GetKnightAttacks(sq);
    if inCheck then attacks * Defending(p)
    else if capturesOnly then attacks * ColorOccupancy(p, Opposite(p.turn))
    else attacks * Neg(ColorOccupancy(p, p.turn))
  }

  /// The squares a slider of the side to move on `sq` may move to along
  /// the lines of `kind`: the seen squares cut as for a knight, and to the
  /// pin axis when the piece is pinned.
  function SliderTargets(tables: CT.Build, p: Position, kind: SL.Slider, sq: Square, capturesOnly: bool, inCheck: bool): BitBoard
    requires Ready(tables, p) && (inCheck ==> p.checkers != EMPTY)
  {
    var attacks :=
      if kind == SL.Bishop then CT.GetBishopAttacks(tables, sq, Occupancy(p))
      else CT.GetRookAttacks(tables, sq, Occupancy(p));
    var allowed :=
      if inCheck then Defending(p)
      else if capturesOnly then ColorOccupancy(p, Opposite(p.turn))
      else Neg(ColorOccupancy(p, p.turn));
    if IsPinned(p, sq) then attacks * allowed * PinAxis(p, sq) else attacks * allowed
  }

  /// The four kinds of per-piece loops of the generator.
  datatype Mover = Pawns | Knights | Bishops | Rooks

  /// The squares a loop visits: the pawns; the unpinned knights; the
  /// bishops and queens; the rooks and queens.
  function Movers(p: Position, mover: Mover): BitBoard
    requires WellFormed(p)
  {
    var us := p.turn;
    match mover
    case Pawns => Query(p, Pawn, us)
    case Knights => Query(p, Knight, us) * Neg(p.pinned)
    case Bishops => Query(p, Bishop, us) + Query(p, Queen, us)
    case Rooks => Query(p, Rook, us) + Query(p, Queen, us)
  }

  /// The targets a loop computes for the piece on `sq`.
  function Targets(tables: CT.Build, p: Position, mover: Mover, sq: Square, capturesOnly: bool, inCheck: bool): BitBoard
    requires Ready(tables, p) && (inCheck ==> p.checkers != EMPTY)
  {
    match mover
    case Pawns => PawnTargets(tables, p, sq, capturesOnly, inCheck)
    case Knights => KnightTargets(p, sq, capturesOnly, inCheck)
    case Bishops => SliderTargets(tables, p, SL.Bishop, sq, capturesOnly, inCheck)
    case Rooks => SliderTargets(tables, p, SL.Rook, sq, capturesOnly, inCheck)
  }

  /// The entries a loop pushes for the squares of `squares`, lowest square
  /// first; pieces without targets push nothing.
  function Entries(tables: CT.Build, p: Position, mover: Mover, squares: BitBoard, capturesOnly: bool, inCheck: bool): seq<PieceMoves>
    requires Ready(tables, p) && (inCheck ==> p.checkers != EMPTY)
    decreases |squares|
  {
    if squares == EMPTY then []
    else
      var sq := ScanForward(squares).value;
      Pushed(PieceMoves(sq, Targets(tables, p, mover, sq, capturesOnly, inCheck)))
      + Entries(tables, p, mover, squares - {sq}, capturesOnly, inCheck)
  }

  /// An entry of a loop is a visited piece with the targets the loop
  /// computes for it, and it has targets; every visited piece with targets
  /// has its entry.
  lemma {:induction false} EntriesMeaning(tables: CT.Build, p: Position, mover: Mover, squares: BitBoard, capturesOnly: bool, inCheck: bool, e: PieceMoves)
    requires Ready(tables, p) && (inCheck ==> p.checkers != EMPTY)
    ensures e in Entries(tables, p, mover, squares, capturesOnly, inCheck) <==>
      e.location in squares && e.targets == Targets(tables, p, mover, e.location, capturesOnly, inCheck) && e.targets != EMPTY
    decreases |squares|
  {
    if squares != EMPTY {
      var sq := ScanForward(squares).value;
      EntriesMeaning(tables, p, mover, squares - {sq}, capturesOnly, inCheck, e);
    }
  }

  // ---------------------------------------------------------------------
  // The king and castling.

  /// The king's steps before the safety test: onto enemy pieces in
  /// captures-only mode out of check, otherwise onto any square not
  /// holding a friendly piece.
  function KingSteps(p: Position, capturesOnly: bool, inCheck: bool): BitBoard
    requires WellFormed(p) && Query(p, King, p.turn) != EMPTY
  {
    var attacks := CT.GetKingAttacks(KingSquare(p, p.turn));
    if capturesOnly && !inCheck then attacks * ColorOccupancy(p, Opposite(p.turn))
    else attacks * Neg(ColorOccupancy(p, p.turn))
  }

  /// The occupancy with the king of the side to move lifted off the board,
  /// so that it does not shadow the squares behind it.
  function NoKingOccupancy(p: Position): BitBoard
    requires WellFormed(p) && Query(p, King, p.turn) != EMPTY
  {
    Xor(Occupancy(p), FromSquare(KingSquare(p, p.turn)))
  }

  /// The enemy does not attack `s` once the king of the side to move is
  /// lifted off the board.
  ghost predicate KingSafeOn(tables: CT.Build, p: Position, s: Square)
    requires Ready(tables, p)
  {
    !AttackedWith(p, s, Opposite(p.turn), NoKingOccupancy(p))
  }

  /// The steps of `steps` the enemy does not attack with the king lifted.
  ghost function SafeSteps(tables: CT.Build, p: Position, steps: BitBoard): (safe: BitBoard)
    requires Ready(tables, p)
  {
    set s | s in steps && KingSafeOn(tables, p, s)
  }

  /// The squares between king and rook on the kingside, which must be
  /// empty and unattacked: F1 and G1, or F8 and G8.
  function KingsidePath(us: Color): BitBoard
  {
    if us == White then {F1, G1} else {F8, G8}
  }

  /// The squares between king and rook on the queenside, which must be
  /// empty: B1, C1 and D1, or B8, C8 and D8.
  function QueensideGap(us: Color): BitBoard
  {
    if us == White then {1, C1, D1} else {57, C8, D8}
  }

  /// The queenside squares the king crosses, which must be unattacked:
  /// C1 and D1, or C8 and D8.
  function QueensidePath(us: Color): BitBoard
  {
    if us == White then {C1, D1} else {C8, D8}
  }

  /// Where the king lands by castling on `side`.
  function CastleTarget(us: Color, side: CastleSide): Square
  {
    match (us, side)
    case (White, Kingside) => G1
    case (White, Queenside) => C1
    case (Black, Kingside) => G8
    case (Black, Queenside) => C8
  }

  /// Some square of `squares` is attacked by the enemy, tried from the
  /// lowest square up.
  ghost predicate AnyAttacked(tables: CT.Build, p: Position, squares: BitBoard)
    requires CT.Ready(tables) && WellFormed(p)
    decreases |squares|
  {
    if squares == EMPTY then false
    else
      var s := ScanForward(squares).value;
      AttackedBy(p, s, Opposite(p.turn)) || AnyAttacked(tables, p, squares - {s})
  }

  /// The test holds exactly when the enemy attacks some square of the set.
  lemma {:induction false} AnyAttackedMeaning(tables: CT.Build, p: Position, squares: BitBoard)
    requires CT.Ready(tables) && WellFormed(p)
    ensures AnyAttacked(tables, p, squares) <==> exists s :: s in squares && AttackedBy(p, s, Opposite(p.turn))
    decreases |squares|
  {
    if squares != EMPTY {
      var s := ScanForward(squares).value;
      AnyAttackedMeaning(tables, p, squares - {s});
      if exists t :: t in squares && AttackedBy(p, t, Opposite(p.turn)) {
        var t :| t in squares && AttackedBy(p, t, Opposite(p.turn));
        if t != s {
          assert t in squares - {s};
        }
      }
    }
  }

  /// Castling on `side` is open: the right is set, the squares between
  /// king and rook are empty and the squares the king crosses are not
  /// attacked.
  ghost predicate CastleOpen(tables: CT.Build, p: Position, side: CastleSide)
    requires CT.Ready(tables) && WellFormed(p)
  {
    var us := p.turn;
    IsSet(p.castlingRights, side, us)
    && (if side == Kingside then
          !Overlaps(KingsidePath(us), Occupancy(p)) && !AnyAttacked(tables, p, KingsidePath(us))
        else
          !Overlaps(QueensideGap(us), Occupancy(p)) && !AnyAttacked(tables, p, QueensidePath(us)))
  }

  /// The landing square of `side` when castling there is open.
  ghost function CastleMove(tables: CT.Build, p: Position, side: CastleSide): (b: BitBoard)
    requires CT.Ready(tables) && WellFormed(p)
  {
    if CastleOpen(tables, p, side) then {CastleTarget(p.turn, side)} else EMPTY
  }

  /// The squares the king lands on by castling: none in check, otherwise
  /// the target of each open side.
  ghost function CastleTargets(tables: CT.Build, p: Position, inCheck: bool): BitBoard
    requires CT.Ready(tables) && WellFormed(p)
  {
    if inCheck then EMPTY
    else CastleMove(tables, p, Kingside) + CastleMove(tables, p, Queenside)
  }

  /// The squares the king of the side to move may move to: its safe steps
  /// and, outside captures-only mode, its castle targets.
  ghost function KingTargets(tables: CT.Build, p: Position, capturesOnly: bool, inCheck: bool): BitBoard
    requires Ready(tables, p)
  {
    SafeSteps(tables, p, KingSteps(p, capturesOnly, inCheck))
    + (if capturesOnly then EMPTY else CastleTargets(tables, p, inCheck))
  }

  /// The king's entry, when it has targets.
  ghost function KingEntry(tables: CT.Build, p: Position, capturesOnly: bool, inCheck: bool): seq<PieceMoves>
    requires Ready(tables, p)
  {
    Pushed(PieceMoves(KingSquare(p, p.turn), KingTargets(tables, p, capturesOnly, inCheck)))
  }

  /// The list `generate_moves` builds: out of check pawns, knights, king,
  /// bishops and rooks; in single check the same with the check masks; in
  /// double check only the king.
  ghost function GeneratedEntries(tables: CT.Build, p: Position, capturesOnly: bool): seq<PieceMoves>
    requires Ready(tables, p)
  {
    if p.checkers == EMPTY then AllEntries(tables, p, capturesOnly, false)
    else if |p.checkers| == 1 then AllEntries(tables, p, capturesOnly, true)
    else KingEntry(tables, p, capturesOnly, true)
  }

  /// The five loops in their order.
  ghost function AllEntries(tables: CT.Build, p: Position, capturesOnly: bool, inCheck: bool): seq<PieceMoves>
    requires Ready(tables, p) && (inCheck ==> p.checkers != EMPTY)
  {
    Entries(tables, p, Pawns, Movers(p, Pawns), capturesOnly, inCheck)
    + Entries(tables, p, Knights, Movers(p, Knights), capturesOnly, inCheck)
    + KingEntry(tables, p, capturesOnly, inCheck)
    + Entries(tables, p, Bishops, Movers(p, Bishops), capturesOnly, inCheck)
    + Entries(tables, p, Rooks, Movers(p, Rooks), capturesOnly, inCheck)
  }

  /// A loop pushes at most one entry per visited square, and exactly one
  /// when every visited piece has targets.
  lemma {:induction false} EntriesSize(tables: CT.Build, p: Position, mover: Mover, squares: BitBoard, capturesOnly: bool, inCheck: bool)
    requires Ready(tables, p) && (inCheck ==> p.checkers != EMPTY)
    ensures |Entries(tables, p, mover, squares, capturesOnly, inCheck)| <= |squares|
    ensures (forall sq :: sq in squares ==> Targets(tables, p, mover, sq, capturesOnly, inCheck) != EMPTY)
      ==> |Entries(tables, p, mover, squares, capturesOnly, inCheck)| == |squares|
    decreases |squares|
  {
    if squares != EMPTY {
      var sq := ScanForward(squares).value;
      EntriesSize(tables, p, mover, squares - {sq}, capturesOnly, inCheck);
    }
  }

  /// The list `generate_moves` builds always fits in the move list: each
  /// loop visits at most the 64 squares, and the king pushes at most one
  /// entry.
  lemma GeneratedFits(tables: CT.Build, p: Position, capturesOnly: bool)
    requires Ready(tables, p)
    ensures |GeneratedEntries(tables, p, capturesOnly)| <= CAPACITY
  {
    if |p.checkers| <= 1 {
      var inCheck := p.checkers != EMPTY;
      var pawns := Entries(tables, p, Pawns, Movers(p, Pawns), capturesOnly, inCheck);
      var knights := Entries(tables, p, Knights, Movers(p, Knights), capturesOnly, inCheck);
      var king := KingEntry(tables, p, capturesOnly, inCheck);
      var bishops := Entries(tables, p, Bishops, Movers(p, Bishops), capturesOnly, inCheck);
      var rooks := Entries(tables, p, Rooks, Movers(p, Rooks), capturesOnly, inCheck);
      assert GeneratedEntries(tables, p, capturesOnly) == pawns + knights + king + bishops + rooks;
      LoopSize(tables, p, Pawns, capturesOnly, inCheck);
      LoopSize(tables, p, Knights, capturesOnly, inCheck);
      LoopSize(tables, p, Bishops, capturesOnly, inCheck);
      LoopSize(tables, p, Rooks, capturesOnly, inCheck);
    }
  }

  /// A loop pushes at most 64 entries.
  lemma LoopSize(tables: CT.Build, p: Position, mover: Mover, capturesOnly: bool, inCheck: bool)
    requires Ready(tables, p) && (inCheck ==> p.checkers != EMPTY)
    ensures |Entries(tables, p, mover, Movers(p, mover), capturesOnly, inCheck)| <= 64
  {
    EntriesSize(tables, p, mover, Movers(p, mover), capturesOnly, inCheck);
    BoardSize(Movers(p, mover));
  }

  // ---------------------------------------------------------------------
  // The generating procedures.

  /// One piece of a loop: the lowest visited square pushes its entry
  /// before the others.
  lemma EntriesStep(tables: CT.Build, p: Position, mover: Mover, squares: BitBoard, capturesOnly: bool, inCheck: bool, sq: Square)
    requires Ready(tables, p) && (inCheck ==> p.checkers != EMPTY)
    requires ScanForward(squares) == Some(sq)
    ensures Entries(tables, p, mover, squares, capturesOnly, inCheck)
      == Pushed(PieceMoves(sq, Targets(tables, p, mover, sq, capturesOnly, inCheck)))
         + Entries(tables, p, mover, squares - {sq}, capturesOnly, inCheck)
  {
  }

  /// The list `moves` holds `start` followed by `whole` minus the part
  /// still to come, `rest`, and the part still to come fits.
  ghost predicate Progress(moves: seq<PieceMoves>, rest: seq<PieceMoves>, start: seq<PieceMoves>, whole: seq<PieceMoves>)
  {
    moves + rest == start + whole && |moves| + |rest| <= CAPACITY
  }

  /// Pushing the first entry still to come keeps the progress.
  lemma ProgressStep(moves: seq<PieceMoves>, added: seq<PieceMoves>, rest: seq<PieceMoves>, start: seq<PieceMoves>, whole: seq<PieceMoves>)
    requires Progress(moves, added + rest, start, whole)
    ensures Progress(moves + added, rest, start, whole)
  {
    assert moves + (added + rest) == moves + added + rest;
  }

  /// The loop of one `generate_*_moves`: each visited piece, lowest square
  /// first, pushes its targets.
  method PushEntries(moves: MoveList, tables: CT.Build, p: Position, mover: Mover, capturesOnly: bool, inCheck: bool)
    requires moves.Valid() && Ready(tables, p) && (inCheck ==> p.checkers != EMPTY)
    requires moves.length + |Entries(tables, p, mover, Movers(p, mover), capturesOnly, inCheck)| <= CAPACITY
    modifies moves, moves.data
    ensures moves.Valid()
    ensures moves.Contents() == old(moves.Contents()) + Entries(tables, p, mover, Movers(p, mover), capturesOnly, inCheck)
  {
    ghost var start := moves.Contents();
    ghost var whole := Entries(tables, p, mover, Movers(p, mover), capturesOnly, inCheck);
    var pieces := Movers(p, mover);
    while pieces != EMPTY
      invariant moves.Valid()
      invariant Progress(moves.Contents(), Entries(tables, p, mover, pieces, capturesOnly, inCheck), start, whole)
      decreases pieces
    {
      ghost var before := moves.Contents();
      ghost var visiting := pieces;
      var next;
      next, pieces := Next(pieces);
      var sq := next.value;
      var targets := Targets(tables, p, mover, sq, capturesOnly, inCheck);
      EntriesStep(tables, p, mover, visiting, capturesOnly, inCheck, sq);
      ProgressStep(before, Pushed(PieceMoves(sq, targets)), Entries(tables, p, mover, pieces, capturesOnly, inCheck), start, whole);
      moves.Push(PieceMoves(sq, targets));
    }
    assert moves.Contents() + [] == moves.Contents();
  }

  /// `generate_pawn_moves`.
  method GeneratePawnMoves(moves: MoveList, tables: CT.Build, p: Position, capturesOnly: bool, inCheck: bool)
    requires moves.Valid() && Ready(tables, p) && (inCheck ==> p.checkers != EMPTY)
    requires moves.length + |Entries(tables, p, Pawns, Movers(p, Pawns), capturesOnly, inCheck)| <= CAPACITY
    modifies moves, moves.data
    ensures moves.Valid()
    ensures moves.Contents() == old(moves.Contents()) + Entries(tables, p, Pawns, Movers(p, Pawns), capturesOnly, inCheck)
  {
    PushEntries(moves, tables, p, Pawns, capturesOnly, inCheck);
  }

  /// `generate_knight_moves`: pinned knights are skipped.
  method GenerateKnightMoves(moves: MoveList, tables: CT.Build, p: Position, capturesOnly: bool, inCheck: bool)
    requires moves.Valid() && Ready(tables, p) && (inCheck ==> p.checkers != EMPTY)
    requires moves.length + |Entries(tables, p, Knights, Movers(p, Knights), capturesOnly, inCheck)| <= CAPACITY
    modifies moves, moves.data
    ensures moves.Valid()
    ensures moves.Contents() == old(moves.Contents()) + Entries(tables, p, Knights, Movers(p, Knights), capturesOnly, inCheck)
  {
    PushEntries(moves, tables, p, Knights, capturesOnly, inCheck);
  }

  /// `generate_bishop_moves`: bishops and queens along the diagonals.
  method GenerateBishopMoves(moves: MoveList, tables: CT.Build, p: Position, capturesOnly: bool, inCheck: bool)
    requires moves.Valid() && Ready(tables, p) && (inCheck ==> p.checkers != EMPTY)
    requires moves.length + |Entries(tables, p, Bishops, Movers(p, Bishops), capturesOnly, inCheck)| <= CAPACITY
    modifies moves, moves.data
    ensures moves.Valid()
    ensures moves.Contents() == old(moves.Contents()) + Entries(tables, p, Bishops, Movers(p, Bishops), capturesOnly, inCheck)
  {
    PushEntries(moves, tables, p, Bishops, capturesOnly, inCheck);
  }

  /// `generate_rook_moves`: rooks and queens along ranks and files.
  method GenerateRookMoves(moves: MoveList, tables: CT.Build, p: Position, capturesOnly: bool, inCheck: bool)
    requires moves.Valid() && Ready(tables, p) && (inCheck ==> p.checkers != EMPTY)
    requires moves.length + |Entries(tables, p, Rooks, Movers(p, Rooks), capturesOnly, inCheck)| <= CAPACITY
    modifies moves, moves.data
    ensures moves.Valid()
    ensures moves.Contents() == old(moves.Contents()) + Entries(tables, p, Rooks, Movers(p, Rooks), capturesOnly, inCheck)
  {
    PushEntries(moves, tables, p, Rooks, capturesOnly, inCheck);
  }

  /// The loop of `generate_castle_moves` over the squares the king
  /// crosses: stops at the first attacked one.
  method TravelChecked(tables: CT.Build, p: Position, squares: BitBoard) returns (checked: bool)
    requires CT.Ready(tables) && WellFormed(p)
    ensures checked <==> AnyAttacked(tables, p, squares)
  {
    checked := false;
    var rest := squares;
    while rest != EMPTY
      invariant AnyAttacked(tables, p, squares) <==> AnyAttacked(tables, p, rest)
      decreases rest
    {
      var next;
      next, rest := Next(rest);
      var square := next.value;
      if IsSquareAttacked(tables, p, square, Opposite(p.turn)) {
        checked := true;
        break;
      }
    }
  }

  /// One side of `generate_castle_moves`: with the right set and the
  /// squares between king and rook empty, the king's target unless a
  /// square it crosses is attacked.
  method TryCastle(tables: CT.Build, p: Position, side: CastleSide) returns (castle: BitBoard)
    requires CT.Ready(tables) && WellFormed(p)
    ensures castle == CastleMove(tables, p, side)
  {
    var us := p.turn;
    castle := EMPTY;
    if IsSet(p.castlingRights, side, us) {
      var emptySquares := if side == Kingside then KingsidePath(us) else QueensideGap(us);
      var unChecked := if side == Kingside then KingsidePath(us) else QueensidePath(us);
      if !Overlaps(emptySquares, Occupancy(p)) {
        var checked := TravelChecked(tables, p, unChecked);
        if !checked {
          castle := FromSquare(CastleTarget(us, side));
        }
      }
    }
  }

  /// `generate_castle_moves`: nothing in check, otherwise the kingside
  /// then the queenside target.
  method GenerateCastleMoves(tables: CT.Build, p: Position, inCheck: bool) returns (castles: BitBoard)
    requires CT.Ready(tables) && WellFormed(p)
    ensures castles == CastleTargets(tables, p, inCheck)
  {
    if inCheck {
      return EMPTY;
    }
    var kingside := TryCastle(tables, p, Kingside);
    var queenside := TryCastle(tables, p, Queenside);
    castles := kingside + queenside;
  }

  /// The loop's account of the safe steps: the squares still untested are
  /// all kept, and the decided ones kept are exactly the safe ones.
  ghost predicate Accounted(tables: CT.Build, p: Position, steps: BitBoard, safe: BitBoard, untested: BitBoard)
    requires Ready(tables, p)
  {
    untested <= steps && safe == untested + SafeSteps(tables, p, steps - untested)
  }

  /// Deciding an untested step keeps the account: the step is kept when
  /// safe, struck out otherwise.
  lemma StrikeStep(tables: CT.Build, p: Position, steps: BitBoard, safe: BitBoard, untested: BitBoard, s: Square)
    requires Ready(tables, p) && s in untested
    requires Accounted(tables, p, steps, safe, untested)
    ensures Accounted(tables, p, steps, if KingSafeOn(tables, p, s) then safe else safe - {s}, untested - {s})
  {
    assert steps - (untested - {s}) == (steps - untested) + {s};
  }

  /// The safety loop of `generate_king_moves`: every step the enemy
  /// attacks with the king lifted is struck out.
  method RemoveAttacked(tables: CT.Build, p: Position, steps: BitBoard) returns (safe: BitBoard)
    requires Ready(tables, p)
    ensures safe == SafeSteps(tables, p, steps)
  {
    var kingSq := KingSquare(p, p.turn);
    var noKingOccupancy := Xor(Occupancy(p), FromSquare(kingSq));
    assert noKingOccupancy == NoKingOccupancy(p);
    safe := steps;
    var squares := steps;
    assert steps - squares == EMPTY;
    while squares != EMPTY
      invariant Accounted(tables, p, steps, safe, squares)
      decreases squares
    {
      var next;
      ghost var untested := squares;
      next, squares := Next(squares);
      var square := next.value;
      StrikeStep(tables, p, steps, safe, untested, square);
      if IsSquareAttackedWithOccupancy(tables, p, square, noKingOccupancy, Opposite(p.turn)) {
        safe := Xor(safe, FromSquare(square));
      }
    }
    assert steps - squares == steps;
  }

  /// `generate_king_moves`: the king's steps, less those the enemy attacks
  /// once the king is lifted, plus the castle targets outside
  /// captures-only mode.
  method GenerateKingMoves(moves: MoveList, tables: CT.Build, p: Position, capturesOnly: bool, inCheck: bool)
    requires moves.Valid() && Ready(tables, p)
    requires moves.length + |KingEntry(tables, p, capturesOnly, inCheck)| <= CAPACITY
    modifies moves, moves.data
    ensures moves.Valid()
    ensures moves.Contents() == old(moves.Contents()) + KingEntry(tables, p, capturesOnly, inCheck)
  {
    var attacks := KingMoveTargets(tables, p, capturesOnly, inCheck);
    moves.Push(PieceMoves(KingSquare(p, p.turn), attacks));
  }

  /// The targets `generate_king_moves` computes before it pushes them.
  method KingMoveTargets(tables: CT.Build, p: Position, capturesOnly: bool, inCheck: bool) returns (attacks: BitBoard)
    requires Ready(tables, p)
    ensures attacks == KingTargets(tables, p, capturesOnly, inCheck)
  {
    var us := p.turn;
    var kingSq := KingSquare(p, us);
    attacks := CT.GetKingAttacks(kingSq);
    attacks := if capturesOnly && !inCheck then attacks * ColorOccupancy(p, Opposite(us)) else attacks * Neg(ColorOccupancy(p, us));
    assert attacks == KingSteps(p, capturesOnly, inCheck);
    attacks := RemoveAttacked(tables, p, attacks);
    if !capturesOnly {
      var castles := GenerateCastleMoves(tables, p, inCheck);
      attacks := attacks + castles;
    } else {
      assert attacks + EMPTY == attacks;
    }
    assert attacks == KingTargets(tables, p, capturesOnly, inCheck);
  }

  /// `generate_moves`: out of check every kind of piece; in single check
  /// every kind with the check masks; in double check only the king.
  method GenerateMoves(tables: CT.Build, p: Position, capturesOnly: bool) returns (moves: MoveList)
    requires Ready(tables, p)
    ensures fresh(moves) && fresh(moves.data) && moves.Valid()
    ensures moves.Contents() == GeneratedEntries(tables, p, capturesOnly)
  {
    GeneratedFits(tables, p, capturesOnly);
    moves := new MoveList();
    if IsEmpty(p.checkers) {
      GenerateAll(moves, tables, p, capturesOnly, false);
    } else if Popcnt(p.checkers) == 1 {
      GenerateAll(moves, tables, p, capturesOnly, true);
    } else {
      GenerateKingMoves(moves, tables, p, capturesOnly, true);
    }
  }

  /// The five calls of `generate_moves` outside double check.
  method GenerateAll(moves: MoveList, tables: CT.Build, p: Position, capturesOnly: bool, inCheck: bool)
    requires moves.Valid() && moves.Contents() == [] && Ready(tables, p) && (inCheck ==> p.checkers != EMPTY)
    requires |AllEntries(tables, p, capturesOnly, inCheck)| <= CAPACITY
    modifies moves, moves.data
    ensures moves.Valid()
    ensures moves.Contents() == AllEntries(tables, p, capturesOnly, inCheck)
  {
    ghost var pawns := Entries(tables, p, Pawns, Movers(p, Pawns), capturesOnly, inCheck);
    ghost var knights := Entries(tables, p, Knights, Movers(p, Knights), capturesOnly, inCheck);
    ghost var king := KingEntry(tables, p, capturesOnly, inCheck);
    ghost var bishops := Entries(tables, p, Bishops, Movers(p, Bishops), capturesOnly, inCheck);
    ghost var rooks := Entries(tables, p, Rooks, Movers(p, Rooks), capturesOnly, inCheck);
    assert AllEntries(tables, p, capturesOnly, inCheck) == pawns + knights + king + bishops + rooks;
    assert |pawns| + |knights| + |king| + |bishops| + |rooks| <= CAPACITY;
    GeneratePawnMoves(moves, tables, p, capturesOnly, inCheck);
    assert moves.Contents() == pawns;
    GenerateKnightMoves(moves, tables, p, capturesOnly, inCheck);
    assert moves.Contents() == pawns + knights;
    GenerateKingMoves(moves, tables, p, capturesOnly, inCheck);
    assert moves.Contents() == pawns + knights + king;
    GenerateBishopMoves(moves, tables, p, capturesOnly, inCheck);
    assert moves.Contents() == pawns + knights + king + bishops;
    GenerateRookMoves(moves, tables, p, capturesOnly, inCheck);
  }
}
