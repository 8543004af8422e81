// The per-piece move lists of the generator (src/movegen/movelist.rs): a
// fixed array of (square, targets) entries used as a stack, and
// the number of moves the entries stand for.
module MoveLists {
  import opened Wrappers
  import opened Squares
  import opened BitBoards
  import opened Colors
  import opened Pieces
  import opened Positions
  import Ranks

  /// `PieceMoves`: a piece's square and the squares it may move to.
  datatype PieceMoves = PieceMoves(location: Square, targets: BitBoard)

  /// The number of slots of the array in the Rust code. The generator can
  /// push more entries than that (see MoveListOverflow).
  const SOURCE_CAPACITY: nat := 18

  /// The number of slots of the array here: one per square for each of
  /// the four per-piece loops, and one for the king, which is every entry
  /// the generator can push (Generator.GeneratedFits).
  const CAPACITY: nat := 4 * 64 + 1

  /// What `push` adds for an entry: nothing when it has no targets.
  function Pushed(entry: PieceMoves): (added: seq<PieceMoves>)
    ensures |added| <= 1
    ensures forall e :: e in added ==> e == entry && e.targets != EMPTY
    ensures entry.targets != EMPTY ==> added == [entry]
  {
    if entry.targets == EMPTY then [] else [entry]
  }

  /// The rank on which the pawns of `color` promote: the eighth for White,
  /// the first for Black.
  function PromoteRank(color: Color): (b: BitBoard)
    ensures forall s: Square :: s in b <==> RankIndex(s) == (if color == White then 7 else 0)
  {
    match color
    case White => FromRank(Ranks.Eighth)
    case Black => FromRank(Ranks.First)
  }

  /// Every entry names an occupied square (`count_moves` unwraps
  /// `piece_at` on each location).
  predicate Located(p: Position, entries: seq<PieceMoves>)
    requires WellFormed(p)
  {
    forall i :: 0 <= i < |entries| ==> entries[i].location in Occupancy(p)
  }

  /// The number of moves one entry stands for in `count_moves`: for a
  /// pawn the targets on the promotion rank of the side to move count four
  /// times, the others once; for any other piece each target counts once.
  function EntryCount(p: Position, entry: PieceMoves): nat
    requires WellFormed(p) && entry.location in Occupancy(p)
  {
    if PieceAt(p, entry.location).value.kind == Pawn then
      var promotions := entry.targets * PromoteRank(p.turn);
      var normal := entry.targets * Neg(promotions);
      4 * Popcnt(promotions) + Popcnt(normal)
    else
      Popcnt(entry.targets)
  }

  /// The total `count_moves` adds up over a list of entries.
  function Count(p: Position, entries: seq<PieceMoves>): nat
    requires WellFormed(p) && Located(p, entries)
  {
    if entries == [] then 0
    else Count(p, entries[..|entries| - 1]) + EntryCount(p, entries[|entries| - 1])
  }

  /// Every target is at least one move, and a pawn's promotion targets are
  /// three more each: a promotion is four moves.
  lemma EntryCountTargets(p: Position, entry: PieceMoves)
    requires WellFormed(p) && entry.location in Occupancy(p)
    ensures PieceAt(p, entry.location).value.kind == Pawn ==>
      EntryCount(p, entry) == |entry.targets| + 3 * |entry.targets * PromoteRank(p.turn)|
    ensures PieceAt(p, entry.location).value.kind != Pawn ==> EntryCount(p, entry) == |entry.targets|
  {
    var promotions := entry.targets * PromoteRank(p.turn);
    var normal := entry.targets * Neg(promotions);
    assert entry.targets == promotions + normal;
    assert promotions * normal == {};
  }

  /// Counting a list is counting its parts.
  lemma {:induction false} CountAppend(p: Position, a: seq<PieceMoves>, b: seq<PieceMoves>)
    requires WellFormed(p) && Located(p, a) && Located(p, b)
    ensures Located(p, a + b)
    ensures Count(p, a + b) == Count(p, a) + Count(p, b)
    decreases |b|
  {
    if b != [] {
      var n := |b| - 1;
      assert (a + b)[..|a + b| - 1] == a + b[..n];
      CountAppend(p, a, b[..n]);
    } else {
      assert a + b == a;
    }
  }

  /// Counting one more entry of a list adds that entry's moves.
  lemma CountStep(p: Position, entries: seq<PieceMoves>, i: nat)
    requires WellFormed(p) && Located(p, entries) && i < |entries|
    ensures Located(p, entries[..i]) && Located(p, entries[..i + 1])
    ensures Count(p, entries[..i + 1]) == Count(p, entries[..i]) + EntryCount(p, entries[i])
  {
    assert entries[..i + 1][..i] == entries[..i];
  }

  /// `MoveList`: entries in `data[..length]`, oldest first; the slots from
  /// `length` on hold whatever was written last (`MaybeUninit` in the
  /// Rust code).
  class MoveList {
    const data: array<PieceMoves>
    var length: nat

    /// The array has its slots and the length fits in them.
    ghost predicate Valid()
      reads this
    {
      data.Length == CAPACITY && length <= CAPACITY
    }

    /// The entries on the stack, the most recently pushed last.
    function Contents(): (entries: seq<PieceMoves>)
      reads this, data
      requires Valid()
      ensures |entries| == length
    {
      data[..length]
    }

    /// `new`: an empty list.
    constructor ()
      ensures Valid() && Contents() == [] && fresh(data)
    {
      data := new PieceMoves[CAPACITY](_ => PieceMoves(0, EMPTY));
      length := 0;
    }

    /// `is_empty`: no entry is stored.
    function IsEmpty(): (r: bool)
      reads this, data
      requires Valid()
      ensures r <==> Contents() == []
    {
      length == 0
    }

    /// `push`: an entry with targets goes on top; one without is dropped.
    /// The write is unchecked, so a full list must not receive one.
    method Push(pieceMoves: PieceMoves)
      requires Valid() && (pieceMoves.targets != EMPTY ==> length < CAPACITY)
      modifies this, data
      ensures Valid()
      ensures Contents() == old(Contents()) + Pushed(pieceMoves)
    {
      if !BitBoards.IsEmpty(pieceMoves.targets) {
        data[length] := pieceMoves;
        length := length + 1;
      }
    }

    /// `pop`: None on an empty list; otherwise the most recently pushed
    /// entry, which leaves the list.
    method Pop() returns (popped: Option<PieceMoves>)
      requires Valid()
      modifies this
      ensures Valid()
      ensures popped.None? <==> old(Contents()) == []
      ensures popped.None? ==> Contents() == old(Contents())
      ensures popped.Some? ==> old(Contents()) == Contents() + [popped.value]
    {
      if length == 0 {
        return None;
      }
      length := length - 1;
      popped := Some(data[length]);
      assert old(Contents()) == Contents() + [popped.value];
    }

    /// `back`: the most recently pushed entry, None on an empty list.
    function Back(): (back: Option<PieceMoves>)
      reads this, data
      requires Valid()
      ensures back.None? <==> Contents() == []
      ensures back.Some? ==> Contents() == Contents()[..length - 1] + [back.value]
    {
      if IsEmpty() then None else Some(data[length - 1])
    }

    /// `back_mut` followed by an assignment to the entry's targets: the
    /// top entry gets the new targets; an empty list is left alone.
    method SetBackTargets(targets: BitBoard) returns (found: bool)
      requires Valid()
      modifies data
      ensures Valid()
      ensures found <==> old(Contents()) != []
      ensures !found ==> Contents() == old(Contents())
      ensures found ==> Contents() == old(Contents())[..length - 1] + [old(Contents())[length - 1].(targets := targets)]
    {
      if IsEmpty() {
        return false;
      }
      data[length - 1] := data[length - 1].(targets := targets);
      found := true;
    }

    /// `count_moves`: adds up, entry by entry, the moves each stands for.
    method CountMoves(p: Position) returns (total: nat)
      requires Valid() && WellFormed(p) && Located(p, Contents())
      ensures total == Count(p, Contents())
    {
      ghost var entries := Contents();
      total := 0;
      for i := 0 to length
        invariant total == Count(p, entries[..i])
      {
        CountStep(p, entries, i);
        var pieceMoves := data[i];
        assert pieceMoves == entries[i];
        var moving := PieceAt(p, pieceMoves.location).value.kind;
        if moving == Pawn {
          var promoteRank := PromoteRank(p.turn);
          var promotions := pieceMoves.targets * promoteRank;
          var normal := pieceMoves.targets * Neg(promotions);
          total := total + 4 * Popcnt(promotions);
          total := total + Popcnt(normal);
        } else {
          total := total + Popcnt(pieceMoves.targets);
        }
      }
      assert entries[..length] == entries;
    }
  }
}
