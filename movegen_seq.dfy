// The sequence of moves a move list stands for, as the iterator of
// src/chessboard/movegen/movegen.rs yields them: the entries from the top
// of the list down, each entry's targets in ascending order, and every
// promotion as four moves.
module MoveSequences {
  import opened Wrappers
  import opened Squares
  import opened BitBoards
  import opened Colors
  import opened Pieces
  import opened Positions
  import opened MoveLists
  import opened MoveGens

  /// `PromoteStatus`: the piece the pending promotion goes to next.
  datatype PromoteStatus = PromoteBishop | PromoteRook | PromoteQueen

  /// How many of the four moves of the pending promotion have been
  /// yielded when the status is `status`.
  function Yielded(status: PromoteStatus): (n: nat)
    ensures 1 <= n <= 3
  {
    match status
    case PromoteBishop => 1
    case PromoteRook => 2
    case PromoteQueen => 3
  }

  /// The promotion piece a yielded move was classified with: its own
  /// target for a promotion, the knight the iterator classifies with
  /// otherwise.
  function TargetOf(mv: Move): PieceType
  {
    if IsPromotion(mv) then mv.target else Knight
  }

  // ---------------------------------------------------------------------
  // The moves a list stands for.

  /// The moves one target stands for: the classified move, and for a
  /// promotion the same promotion to a bishop, a rook and a queen after it.
  function TargetMoves(p: Position, start: Square, end: Square): seq<Move>
    requires WellFormed(p) && start in Occupancy(p)
  {
    var mv := Classify(p, start, end, Knight);
    if IsPromotion(mv) then [mv, mv.(target := Bishop), mv.(target := Rook), mv.(target := Queen)] else [mv]
  }

  /// A target stands for the move classified for it, and when that is a
  /// promotion, for the promotions to a knight, a bishop, a rook and a
  /// queen, in that order.
  lemma {:induction false} TargetMovesMeaning(p: Position, start: Square, end: Square)
    requires WellFormed(p) && start in Occupancy(p)
    ensures IsPromotion(Classify(p, start, end, Knight)) ==>
      (TargetMoves(p, start, end) ==
         [Classify(p, start, end, Knight), Classify(p, start, end, Bishop),
          Classify(p, start, end, Rook), Classify(p, start, end, Queen)])
    ensures !IsPromotion(Classify(p, start, end, Knight)) ==>
      TargetMoves(p, start, end) == [Classify(p, start, end, Knight)]
  {
    ClassifyTarget(p, start, end, Knight, Bishop);
    ClassifyTarget(p, start, end, Knight, Rook);
    ClassifyTarget(p, start, end, Knight, Queen);
  }

  /// The moves of one entry: those of its targets in ascending order.
  function EntryMoves(p: Position, start: Square, targets: BitBoard): seq<Move>
    requires WellFormed(p) && start in Occupancy(p)
    decreases |targets|
  {
    if targets == EMPTY then []
    else
      var end := ScanForward(targets).value;
      TargetMoves(p, start, end) + EntryMoves(p, start, targets - {end})
  }

  /// The moves of a list of entries, the top entry's first.
  function ListMoves(p: Position, entries: seq<PieceMoves>): seq<Move>
    requires WellFormed(p) && Located(p, entries)
    decreases |entries|
  {
    if entries == [] then []
    else
      var top := entries[|entries| - 1];
      EntryMoves(p, top.location, top.targets) + ListMoves(p, entries[..|entries| - 1])
  }

  /// Entries naming pieces of the side to move name occupied squares.
  lemma {:induction false} OwnLocated(p: Position, entries: seq<PieceMoves>)
    requires WellFormed(p) && OwnEntries(p, entries)
    ensures Located(p, entries)
  {
  }

  /// Every move of an entry goes from its square to one of its targets,
  /// and is the classified move for that pair with the promotion piece it
  /// carries, one of the four a pawn may promote to.
  lemma {:induction false} EntryMovesMember(p: Position, start: Square, targets: BitBoard, mv: Move)
    requires WellFormed(p) && start in Occupancy(p) && mv in EntryMoves(p, start, targets)
    ensures mv.start == start && mv.end in targets
    ensures mv == Classify(p, start, mv.end, TargetOf(mv))
    ensures IsPromotion(mv) ==> mv.target in {Knight, Bishop, Rook, Queen}
    decreases |targets|
  {
    var end := ScanForward(targets).value;
    if mv !in TargetMoves(p, start, end) {
      EntryMovesMember(p, start, targets - {end}, mv);
    } else {
      TargetMovesMember(p, start, end, mv);
    }
  }

  /// Every move of a target is its classified move with the promotion
  /// piece it carries.
  lemma {:induction false} TargetMovesMember(p: Position, start: Square, end: Square, mv: Move)
    requires WellFormed(p) && start in Occupancy(p) && mv in TargetMoves(p, start, end)
    ensures mv.start == start && mv.end == end
    ensures mv == Classify(p, start, end, TargetOf(mv))
    ensures IsPromotion(mv) ==> mv.target in {Knight, Bishop, Rook, Queen}
  {
    TargetMovesMeaning(p, start, end);
  }

  /// Every move of a list is the classified move of a listed pair, with
  /// the promotion piece it carries.
  lemma {:induction false} ListMovesMember(p: Position, entries: seq<PieceMoves>, mv: Move)
    requires WellFormed(p) && Located(p, entries) && mv in ListMoves(p, entries)
    ensures Lists(entries, mv.start, mv.end)
    ensures mv == Classify(p, mv.start, mv.end, TargetOf(mv))
    ensures IsPromotion(mv) ==> mv.target in {Knight, Bishop, Rook, Queen}
    decreases |entries|
  {
    var top := entries[|entries| - 1];
    var rest := entries[..|entries| - 1];
    if mv in EntryMoves(p, top.location, top.targets) {
      EntryMovesMember(p, top.location, top.targets, mv);
      assert top in entries;
    } else {
      ListMovesMember(p, rest, mv);
      var e :| e in rest && e.location == mv.start && mv.end in e.targets;
      assert e in entries;
    }
  }

  /// Every move the iterator yields from the legal list is read back from
  /// its text by `create_str_move`.
  lemma {:induction false} GeneratedTextRoundTrip(p: Position, entries: seq<PieceMoves>, mv: Move)
    requires WellFormed(p) && OwnEntries(p, entries)
    requires Located(p, entries) && mv in ListMoves(p, entries)
    ensures !SplitsCharacter(MoveText(mv))
    ensures StrMove(entries, p, MoveText(mv)) == Ok(mv)
  {
    ListMovesMember(p, entries, mv);
    TextRoundTrip(entries, p, mv.start, mv.end, TargetOf(mv));
  }

  // ---------------------------------------------------------------------
  // Counting.

  /// The en-passant square is not on the rank the side to move promotes
  /// on (it never is after a double push, which leaves it on the third or
  /// sixth rank).
  predicate EpOffPromotionRank(p: Position)
  {
    p.enPassant.Some? ==> RankIndex(p.enPassant.value) != (if p.turn == White then 7 else 0)
  }

  /// The moves one target stands for: four for a pawn reaching the
  /// promotion rank, one otherwise.
  lemma {:induction false} TargetMovesCount(p: Position, start: Square, end: Square)
    requires WellFormed(p) && start in Occupancy(p) && EpOffPromotionRank(p)
    ensures |TargetMoves(p, start, end)| ==
      if PieceAt(p, start).value.kind == Pawn && end in PromoteRank(p.turn) then 4 else 1
  {
    var kind := PieceAt(p, start).value.kind;
    if kind == Pawn {
      ClassifyPawn(p, start, end, Knight);
    } else if kind == King {
      ClassifyKing(p, start, end, Knight);
    } else {
      ClassifyPiece(p, start, end, Knight);
    }
  }

  /// `count_moves` for one entry splits off its lowest target.
  lemma EntryCountSplit(p: Position, start: Square, targets: BitBoard, end: Square)
    requires WellFormed(p) && start in Occupancy(p) && end in targets
    ensures EntryCount(p, PieceMoves(start, targets)) ==
      (if PieceAt(p, start).value.kind == Pawn && end in PromoteRank(p.turn) then 4 else 1)
      + EntryCount(p, PieceMoves(start, targets - {end}))
  {
    var rest := targets - {end};
    var promote := PromoteRank(p.turn);
    EntryCountTargets(p, PieceMoves(start, targets));
    EntryCountTargets(p, PieceMoves(start, rest));
    assert |rest| == |targets| - 1;
    if end in promote {
      assert rest * promote == targets * promote - {end};
      assert |rest * promote| == |targets * promote| - 1;
    } else {
      assert rest * promote == targets * promote;
    }
  }

  /// An entry stands for as many moves as `count_moves` counts for it.
  lemma {:induction false} EntryMovesCount(p: Position, start: Square, targets: BitBoard)
    requires WellFormed(p) && start in Occupancy(p) && EpOffPromotionRank(p)
    ensures |EntryMoves(p, start, targets)| == EntryCount(p, PieceMoves(start, targets))
    decreases |targets|
  {
    if targets != EMPTY {
      var end := ScanForward(targets).value;
      TargetMovesCount(p, start, end);
      EntryCountSplit(p, start, targets, end);
      EntryMovesCount(p, start, targets - {end});
    } else {
      EntryCountTargets(p, PieceMoves(start, targets));
    }
  }

  /// A list stands for as many moves as `count_moves` counts: the count is
  /// the number of moves the iterator yields.
  lemma {:induction false} ListMovesCount(p: Position, entries: seq<PieceMoves>)
    requires WellFormed(p) && Located(p, entries) && EpOffPromotionRank(p)
    ensures |ListMoves(p, entries)| == Count(p, entries)
    decreases |entries|
  {
    if entries != [] {
      var top := entries[|entries| - 1];
      EntryMovesCount(p, top.location, top.targets);
      ListMovesCount(p, entries[..|entries| - 1]);
    }
  }

  /// An entry with targets stands for at least one move.
  lemma EntryMovesNonEmpty(p: Position, start: Square, targets: BitBoard)
    requires WellFormed(p) && start in Occupancy(p) && targets != EMPTY
    ensures EntryMoves(p, start, targets) != []
  {
  }

  /// Entries whose targets are not empty stand for no move exactly when
  /// there are none.
  lemma {:induction false} ListMovesEmpty(p: Position, entries: seq<PieceMoves>)
    requires WellFormed(p) && OwnEntries(p, entries) && Located(p, entries)
    ensures ListMoves(p, entries) == [] <==> entries == []
  {
    if entries != [] {
      var top := entries[|entries| - 1];
      EntryMovesNonEmpty(p, top.location, top.targets);
    }
  }

  // ---------------------------------------------------------------------
  // The iterator's state.

  /// Every entry below the top has targets: only the top entry is ever
  /// emptied, and it is popped before the next one is read.
  predicate Settled(entries: seq<PieceMoves>)
  {
    forall i :: 0 <= i < |entries| - 1 ==> entries[i].targets != EMPTY
  }

  /// The top entry's lowest target is a promotion: the target a pending
  /// promotion status belongs to.
  predicate Pending(p: Position, entries: seq<PieceMoves>)
    requires WellFormed(p) && Located(p, entries)
  {
    entries != []
    && var top := entries[|entries| - 1];
       top.targets != EMPTY
       && IsPromotion(Classify(p, top.location, ScanForward(top.targets).value, Knight))
  }

  /// The status after the promotion to the piece `status` names was
  /// yielded: the next piece, or none after the queen.
  function Advanced(status: PromoteStatus): Option<PromoteStatus>
  {
    match status
    case PromoteBishop => Some(PromoteRook)
    case PromoteRook => Some(PromoteQueen)
    case PromoteQueen => None
  }

  /// The piece of the promotion yielded next under `status`.
  function PromotedTo(status: PromoteStatus): PieceType
  {
    match status
    case PromoteBishop => Bishop
    case PromoteRook => Rook
    case PromoteQueen => Queen
  }

  /// The list with the top entry's lowest target removed.
  function Lowered(entries: seq<PieceMoves>): (lowered: seq<PieceMoves>)
    requires entries != [] && entries[|entries| - 1].targets != EMPTY
    ensures |lowered| == |entries| && lowered[..|entries| - 1] == entries[..|entries| - 1]
    ensures var top := entries[|entries| - 1];
      lowered[|entries| - 1] == PieceMoves(top.location, top.targets - {ScanForward(top.targets).value})
    ensures forall i :: 0 <= i < |lowered| ==> lowered[i].location == entries[i].location
  {
    var top := entries[|entries| - 1];
    entries[..|entries| - 1] + [top.(targets := top.targets - {ScanForward(top.targets).value})]
  }

  /// Lowering keeps the entries' squares, and every entry below the top.
  lemma {:induction false} LoweredLocated(p: Position, entries: seq<PieceMoves>)
    requires WellFormed(p) && Located(p, entries) && Settled(entries)
    requires entries != [] && entries[|entries| - 1].targets != EMPTY
    ensures Located(p, Lowered(entries)) && Settled(Lowered(entries))
  {
    var lowered := Lowered(entries);
    forall i | 0 <= i < |lowered|
      ensures lowered[i].location == entries[i].location
      ensures i < |lowered| - 1 ==> lowered[i] == entries[i]
    {
      if i < |lowered| - 1 {
        assert lowered[i] == lowered[..|entries| - 1][i];
      }
    }
  }

  /// A promotion is a promotion capture exactly when an enemy piece
  /// stands on its end square.
  lemma PromotionShape(p: Position, start: Square, end: Square, target: PieceType)
    requires WellFormed(p) && start in Occupancy(p) && IsPromotion(Classify(p, start, end, target))
    ensures Classify(p, start, end, target) ==
      if Takes(p, end, Opposite(p.turn)) then PromoteCapture(start, end, target) else Promote(start, end, target)
  {
  }

  /// The list names pieces of the board; entries below the top have
  /// targets; a promotion status belongs to the top entry's lowest target.
  predicate Consistent(p: Position, entries: seq<PieceMoves>, status: Option<PromoteStatus>)
  {
    WellFormed(p) && Located(p, entries) && Settled(entries)
    && (status.Some? ==> Pending(p, entries))
  }

  /// The moves still to come from a list under a promotion status: with
  /// none, the moves of the list; with a pending promotion, its
  /// promotions to the pieces not yet yielded, then the moves of the list
  /// without the promoted target.
  function StillToCome(p: Position, entries: seq<PieceMoves>, status: Option<PromoteStatus>): seq<Move>
    requires Consistent(p, entries, status)
    decreases if status.Some? then 3 - Yielded(status.value) else 0
  {
    match status
    case None => ListMoves(p, entries)
    case Some(pending) =>
      var top := entries[|entries| - 1];
      var promoted := Classify(p, top.location, ScanForward(top.targets).value, Knight).(target := PromotedTo(pending));
      match Advanced(pending)
      case Some(next) => [promoted] + StillToCome(p, entries, Some(next))
      case None => [promoted] + ListMoves(p, Lowered(entries))
  }

  /// The moves of a list are those of the top entry's lowest target, then
  /// those of the lowered list.
  lemma {:induction false} ListLowered(p: Position, entries: seq<PieceMoves>)
    requires WellFormed(p) && Located(p, entries)
    requires entries != [] && entries[|entries| - 1].targets != EMPTY
    ensures Located(p, Lowered(entries))
    ensures var top := entries[|entries| - 1];
      ListMoves(p, entries) ==
        TargetMoves(p, top.location, ScanForward(top.targets).value) + ListMoves(p, Lowered(entries))
  {
    var top := entries[|entries| - 1];
    var end := ScanForward(top.targets).value;
    var lowered := Lowered(entries);
    assert lowered[|lowered| - 1] == PieceMoves(top.location, top.targets - {end});
    assert ListMoves(p, lowered) ==
      EntryMoves(p, top.location, top.targets - {end}) + ListMoves(p, entries[..|entries| - 1]);
  }

  /// A pending promotion steps to the next piece; after the queen the
  /// lowered list is left with no status.
  lemma {:induction false} PendingAdvance(p: Position, entries: seq<PieceMoves>, status: PromoteStatus)
    requires Consistent(p, entries, Some(status))
    ensures var rest := if Advanced(status).Some? then entries else Lowered(entries);
      var top := entries[|entries| - 1];
      Consistent(p, rest, Advanced(status))
      && StillToCome(p, entries, Some(status)) ==
         [Classify(p, top.location, ScanForward(top.targets).value, Knight).(target := PromotedTo(status))]
         + StillToCome(p, rest, Advanced(status))
  {
    if status == PromoteQueen {
      LoweredLocated(p, entries);
    }
  }

  /// The promotion branch of `next` as a step on values: the move built
  /// from the pending target and the status's piece, a capture exactly
  /// when an enemy stands on the end square, is the next move to come.
  lemma {:induction false} PromotionYield(p: Position, entries: seq<PieceMoves>, status: PromoteStatus, mv: Move)
    requires Consistent(p, entries, Some(status))
    requires var top := entries[|entries| - 1];
      var end := ScanForward(top.targets).value;
      mv == if Takes(p, end, Opposite(p.turn)) then PromoteCapture(top.location, end, PromotedTo(status))
            else Promote(top.location, end, PromotedTo(status))
    ensures var rest := if Advanced(status).Some? then entries else Lowered(entries);
      Consistent(p, rest, Advanced(status))
      && StillToCome(p, entries, Some(status)) == [mv] + StillToCome(p, rest, Advanced(status))
  {
    var top := entries[|entries| - 1];
    var end := ScanForward(top.targets).value;
    PendingAdvance(p, entries, status);
    ClassifyTarget(p, top.location, end, Knight, PromotedTo(status));
    PromotionShape(p, top.location, end, PromotedTo(status));
  }

  /// With no promotion pending, the top entry's lowest target yields its
  /// move; a promotion becomes pending, any other move lowers the list.
  lemma {:induction false} TargetAdvance(p: Position, entries: seq<PieceMoves>)
    requires Consistent(p, entries, None)
    requires entries != [] && entries[|entries| - 1].targets != EMPTY
    ensures var top := entries[|entries| - 1];
      var mv := Classify(p, top.location, ScanForward(top.targets).value, Knight);
      var status := if IsPromotion(mv) then Some(PromoteBishop) else None;
      var rest := if IsPromotion(mv) then entries else Lowered(entries);
      Consistent(p, rest, status) && StillToCome(p, entries, None) == [mv] + StillToCome(p, rest, status)
  {
    var top := entries[|entries| - 1];
    if IsPromotion(Classify(p, top.location, ScanForward(top.targets).value, Knight)) {
      PromotionStarts(p, entries);
    } else {
      TargetLowers(p, entries);
    }
  }

  /// A target classified as a promotion makes the promotion pending and
  /// keeps the list.
  lemma {:induction false} PromotionStarts(p: Position, entries: seq<PieceMoves>)
    requires Consistent(p, entries, None)
    requires entries != [] && entries[|entries| - 1].targets != EMPTY
    requires var top := entries[|entries| - 1];
      IsPromotion(Classify(p, top.location, ScanForward(top.targets).value, Knight))
    ensures Consistent(p, entries, Some(PromoteBishop))
    ensures var top := entries[|entries| - 1];
      StillToCome(p, entries, None) ==
        [Classify(p, top.location, ScanForward(top.targets).value, Knight)] + StillToCome(p, entries, Some(PromoteBishop))
  {
    ListLowered(p, entries);
    PendingUnrolled(p, entries);
  }

  /// A target classified as any other move is taken off the top entry.
  lemma {:induction false} TargetLowers(p: Position, entries: seq<PieceMoves>)
    requires Consistent(p, entries, None)
    requires entries != [] && entries[|entries| - 1].targets != EMPTY
    requires var top := entries[|entries| - 1];
      !IsPromotion(Classify(p, top.location, ScanForward(top.targets).value, Knight))
    ensures Consistent(p, Lowered(entries), None)
    ensures var top := entries[|entries| - 1];
      StillToCome(p, entries, None) ==
        [Classify(p, top.location, ScanForward(top.targets).value, Knight)] + StillToCome(p, Lowered(entries), None)
  {
    LoweredLocated(p, entries);
    ListLowered(p, entries);
  }

  /// A freshly pending promotion stands for the promotions to a bishop, a
  /// rook and a queen, then the moves of the lowered list.
  lemma {:induction false} PendingUnrolled(p: Position, entries: seq<PieceMoves>)
    requires Consistent(p, entries, Some(PromoteBishop))
    ensures Located(p, Lowered(entries))
    ensures var top := entries[|entries| - 1];
      var mv := Classify(p, top.location, ScanForward(top.targets).value, Knight);
      StillToCome(p, entries, Some(PromoteBishop)) ==
        [mv.(target := Bishop), mv.(target := Rook), mv.(target := Queen)] + ListMoves(p, Lowered(entries))
  {
    PendingAdvance(p, entries, PromoteBishop);
    PendingAdvance(p, entries, PromoteRook);
    PendingAdvance(p, entries, PromoteQueen);
  }

  /// The classifying branch of `next` as a step on values, for the move
  /// `mv` it classifies.
  lemma {:induction false} TargetYield(p: Position, entries: seq<PieceMoves>, mv: Move)
    requires Consistent(p, entries, None)
    requires entries != [] && entries[|entries| - 1].targets != EMPTY
    requires var top := entries[|entries| - 1];
      mv == Classify(p, top.location, ScanForward(top.targets).value, Knight)
    ensures var status := if IsPromotion(mv) then Some(PromoteBishop) else None;
      var rest := if IsPromotion(mv) then entries else Lowered(entries);
      Consistent(p, rest, status) && StillToCome(p, entries, None) == [mv] + StillToCome(p, rest, status)
  {
    TargetAdvance(p, entries);
  }

  /// An emptied top entry stands for no move: popping it leaves the moves
  /// still to come as they were, and a top entry with targets.
  lemma {:induction false} PopAdvance(p: Position, entries: seq<PieceMoves>)
    requires Consistent(p, entries, None)
    requires entries != [] && entries[|entries| - 1].targets == EMPTY
    ensures var rest := entries[..|entries| - 1];
      Consistent(p, rest, None) && StillToCome(p, entries, None) == StillToCome(p, rest, None)
      && (rest != [] ==> rest[|rest| - 1].targets != EMPTY)
  {
    var rest := entries[..|entries| - 1];
    assert forall i :: 0 <= i < |rest| ==> rest[i] == entries[i];
  }

  /// With a promotion pending, the moves still to come and those already
  /// yielded of it make up all the moves of the list.
  lemma {:induction false} PendingCount(p: Position, entries: seq<PieceMoves>, status: PromoteStatus)
    requires Consistent(p, entries, Some(status))
    ensures |StillToCome(p, entries, Some(status))| + Yielded(status) == |ListMoves(p, entries)|
  {
    var top := entries[|entries| - 1];
    var end := ScanForward(top.targets).value;
    ListLowered(p, entries);
    var rest := |ListMoves(p, Lowered(entries))|;
    assert |StillToCome(p, entries, Some(PromoteQueen))| == 1 + rest;
    assert |StillToCome(p, entries, Some(PromoteRook))| == 2 + rest;
    assert |StillToCome(p, entries, Some(PromoteBishop))| == 3 + rest;
  }
}
