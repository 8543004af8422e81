// The iterator over the moves of a move list (`MoveGen` and its
// `Iterator` implementation in src/chessboard/movegen/movegen.rs).
module MoveIterators {
  import opened Wrappers
  import opened Squares
  import opened BitBoards
  import opened Colors
  import opened Pieces
  import opened Positions
  import opened MoveLists
  import opened Generator
  import opened MoveGens
  import CT = ChessboardTables
  import opened MoveSequences

  /// `MoveGen`: the board it was made for, the generated list, and the
  /// promotion status.
  class MoveGen {
    const position: Position
    const moves: MoveList
    var promoteStatus: Option<PromoteStatus>
    /// The moves the iterator is still to yield, in order.
    ghost var remaining: seq<Move>

    /// The list is well formed and consistent with the board and the
    /// promotion status.
    ghost predicate Valid()
      reads this, moves, moves.data
    {
      moves.Valid() && Consistent(position, moves.Contents(), promoteStatus)
      && remaining == StillToCome(position, moves.Contents(), promoteStatus)
    }

    /// `legal` (captures-only false) and `captures_only` (true): the list
    /// `generate_moves` builds for the board, and no pending promotion;
    /// the iterator is to yield every move of the list.
    constructor (tables: CT.Build, chessboard: Position, capturesOnly: bool)
      requires Ready(tables, chessboard)
      ensures Valid() && fresh(moves) && fresh(moves.data)
      ensures position == chessboard && promoteStatus == None
      ensures moves.Contents() == GeneratedEntries(tables, chessboard, capturesOnly)
      ensures OwnEntries(chessboard, moves.Contents())
      ensures remaining == ListMoves(chessboard, moves.Contents())
    {
      var list := GenerateMoves(tables, chessboard, capturesOnly);
      GeneratedLocated(tables, chessboard, capturesOnly);
      position := chessboard;
      moves := list;
      promoteStatus := None;
      remaining := ListMoves(chessboard, list.Contents());
    }

    /// `is_empty`: the list holds no entry. Once the last move has been
    /// yielded its emptied entry is still there until the next call of
    /// `next`, so this can be false with no move left.
    function IsEmpty(): (r: bool)
      reads this, moves, moves.data
      requires Valid()
      ensures r ==> remaining == []
    {
      moves.IsEmpty()
    }

    /// While every entry has targets, as on a fresh iterator, the list is
    /// empty exactly when no move is left.
    lemma IsEmptyExact()
      requires Valid() && OwnEntries(position, moves.Contents())
      ensures IsEmpty() <==> remaining == []
    {
      ListMovesEmpty(position, moves.Contents());
    }

    /// `count_moves`: what `count_moves` of the list counts for the board.
    method CountMoves() returns (count: nat)
      requires Valid()
      ensures count == Count(position, moves.Contents())
    {
      count := moves.CountMoves(position);
    }

    /// `size_hint`: the count of `count_moves` as both bounds.
    method SizeHint() returns (lower: nat, upper: Option<nat>)
      requires Valid()
      ensures lower == Count(position, moves.Contents()) && upper == Some(lower)
    {
      lower := CountMoves();
      upper := Some(lower);
    }

    /// With no pending promotion the size hint is exact: it is the number
    /// of moves still to come.
    lemma SizeHintSettled()
      requires Valid() && promoteStatus == None && EpOffPromotionRank(position)
      ensures Count(position, moves.Contents()) == |remaining|
    {
      ListMovesCount(position, moves.Contents());
    }

    /// Mid-promotion the size hint counts the pending target's four moves
    /// in full although some of them have been yielded: it exceeds the
    /// number of moves still to come by that many.
    lemma SizeHintOvercounts()
      requires Valid() && promoteStatus.Some? && EpOffPromotionRank(position)
      ensures Count(position, moves.Contents()) == |remaining| + Yielded(promoteStatus.value)
      ensures Count(position, moves.Contents()) > |remaining|
    {
      ListMovesCount(position, moves.Contents());
      PendingCount(position, moves.Contents(), promoteStatus.value);
    }

    /// `size_hint` as `ExactSizeIterator` needs it: the count less the
    /// moves of the pending promotion already yielded.
    method ExactSizeHint() returns (lower: nat, upper: Option<nat>)
      requires Valid() && EpOffPromotionRank(position)
      ensures lower == |remaining| && upper == Some(lower)
    {
      var count := CountMoves();
      if promoteStatus.Some? {
        SizeHintOvercounts();
        lower := count - Yielded(promoteStatus.value);
      } else {
        SizeHintSettled();
        lower := count;
      }
      upper := Some(lower);
    }

    /// The promotion branch of `next`: the pending target's promotion to
    /// the piece the status names; after the queen the target leaves the
    /// top entry and the status is cleared.
    method YieldPromotion() returns (mv: Move)
      requires Valid() && promoteStatus.Some?
      modifies this, moves.data
      ensures Valid()
      ensures old(remaining) != [] && mv == old(remaining)[0] && remaining == old(remaining)[1..]
    {
      ghost var entries := moves.Contents();
      ghost var status := promoteStatus.value;
      var back := moves.Back().value;
      var start := back.location;
      var end := ScanForward(back.targets).value;
      var them := Opposite(position.turn);
      var target;
      match promoteStatus.value {
        case PromoteBishop =>
          promoteStatus := Some(PromoteRook);
          target := Bishop;
        case PromoteRook =>
          promoteStatus := Some(PromoteQueen);
          target := Rook;
        case PromoteQueen =>
          promoteStatus := None;
          var found := moves.SetBackTargets(Xor(back.targets, FromSquare(end)));
          assert Xor(back.targets, FromSquare(end)) == back.targets - {end};
          target := Queen;
      }
      assert promoteStatus == Advanced(status) && target == PromotedTo(status);
      assert moves.Contents() == if Advanced(status).Some? then entries else Lowered(entries);
      if Overlaps(FromSquare(end), ColorOccupancy(position, them)) {
        mv := PromoteCapture(start, end, target);
      } else {
        mv := Promote(start, end, target);
      }
      PromotionYield(position, entries, status, mv);
      ghost var rest := if Advanced(status).Some? then entries else Lowered(entries);
      remaining := StillToCome(position, rest, Advanced(status));
    }

    /// The classifying branch of `next`: the top entry's lowest target,
    /// classified with a knight as the promotion piece. A promotion starts
    /// the promotion status and keeps the target; any other move removes
    /// the target from the top entry.
    method YieldTarget() returns (mv: Move)
      requires Valid() && promoteStatus == None
      requires moves.Contents() != [] && moves.Contents()[|moves.Contents()| - 1].targets != EMPTY
      modifies this, moves.data
      ensures Valid()
      ensures old(remaining) != [] && mv == old(remaining)[0] && remaining == old(remaining)[1..]
    {
      ghost var entries := moves.Contents();
      var back := moves.Back().value;
      var start := back.location;
      var end := ScanForward(back.targets).value;
      assert back == entries[|entries| - 1];
      mv := Classify(position, start, end, Knight);
      TargetYield(position, entries, mv);
      ghost var rest := if IsPromotion(mv) then entries else Lowered(entries);
      ghost var status := if IsPromotion(mv) then Some(PromoteBishop) else None;
      if IsPromotion(mv) {
        promoteStatus := Some(PromoteBishop);
      } else {
        var found := moves.SetBackTargets(Xor(back.targets, FromSquare(end)));
        assert Xor(back.targets, FromSquare(end)) == back.targets - {end};
      }
      assert moves.Contents() == rest && promoteStatus == status;
      remaining := StillToCome(position, rest, status);
    }

    /// `next`: None once no move is left; an emptied top entry is popped
    /// first. Yields the moves still to come one by one, in order.
    method Next() returns (mv: Option<Move>)
      requires Valid()
      modifies this, moves, moves.data
      ensures Valid()
      ensures old(remaining) == [] ==> mv == None && remaining == []
      ensures old(remaining) != [] ==> mv == Some(old(remaining)[0]) && remaining == old(remaining)[1..]
    {
      if moves.IsEmpty() {
        return None;
      }
      var back := moves.Back().value;
      if BitBoards.IsEmpty(back.targets) {
        PopAdvance(position, moves.Contents());
        var popped := moves.Pop();
        if moves.IsEmpty() {
          return None;
        }
      }
      var yielded;
      if promoteStatus.Some? {
        yielded := YieldPromotion();
      } else {
        yielded := YieldTarget();
      }
      mv := Some(yielded);
    }

    /// `to_vec`: every move still to come, in the order `next` yields
    /// them (the iterator is used up).
    method ToVec() returns (vec: seq<Move>)
      requires Valid()
      modifies this, moves, moves.data
      ensures vec == old(remaining)
    {
      ghost var all := remaining;
      vec := [];
      while true
        invariant Valid()
        invariant vec + remaining == all
        decreases |remaining|
      {
        ghost var before := vec;
        ghost var rest := remaining;
        var mv := Next();
        if mv.None? {
          assert vec == all;
          return;
        }
        vec := vec + [mv.value];
        AppendNext(before, rest, mv.value, remaining, all);
      }
    }
  }

  /// Moving the next move from the moves still to come onto the end of
  /// the collected ones keeps their concatenation.
  lemma AppendNext(collected: seq<Move>, rest: seq<Move>, mv: Move, remaining: seq<Move>, all: seq<Move>)
    requires collected + rest == all && rest != [] && rest[0] == mv && remaining == rest[1..]
    ensures (collected + [mv]) + remaining == all
  {
    assert rest == [mv] + remaining;
  }

  /// `count_legal_moves`: `count_moves` of the legal list, the number of
  /// moves a legal iterator yields.
  method CountLegalMoves(tables: CT.Build, p: Position) returns (count: nat)
    requires Ready(tables, p)
    ensures Located(p, LegalEntries(tables, p))
    ensures count == Count(p, LegalEntries(tables, p))
    ensures EpOffPromotionRank(p) ==> count == |ListMoves(p, LegalEntries(tables, p))|
  {
    var moves := GenerateMoves(tables, p, false);
    GeneratedLocated(tables, p, false);
    count := moves.CountMoves(p);
    if EpOffPromotionRank(p) {
      ListMovesCount(p, LegalEntries(tables, p));
    }
  }
}
