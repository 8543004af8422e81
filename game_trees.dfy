// The shape of `MoveGen::perft` (src/chessboard/movegen/movegen.rs) over
// any game: a board `p` lists its moves `moves(p)` in order, `play(p, m)`
// is the board after move m, and `count(p)` is the number of moves the
// walk counts on a board one ply from the end instead of playing them out.
//
// Every recursive definition here is split in two: the first half speaks
// of the board itself and hands the plies below it to the second half,
// which alone applies `moves`. So one unfolding of a child's value stops
// before the child's moves are looked at.
module GameTrees {

  /// `perft`: one node at depth 0, and below that `WalkOn`.
  function Walk<P, M>(moves: P -> seq<M>, play: (P, M) -> P, count: P -> nat, p: P, depth: nat): nat
    decreases depth, 2, 0
  {
    if depth == 0 then 1 else WalkOn(moves, play, count, p, depth)
  }

  /// At depth 1 the count of the board's moves, deeper the walks below
  /// each move added up.
  function WalkOn<P, M>(moves: P -> seq<M>, play: (P, M) -> P, count: P -> nat, p: P, depth: nat): nat
    requires depth >= 1
    decreases depth, 1, 0
  {
    if depth == 1 then count(p) else WalkSum(moves, play, count, p, moves(p), depth - 1)
  }

  /// The walks to `depth` from the board after each of `ms`, added up in
  /// order.
  function WalkSum<P, M>(moves: P -> seq<M>, play: (P, M) -> P, count: P -> nat, p: P, ms: seq<M>, depth: nat): nat
    decreases depth + 1, 0, |ms|
  {
    if ms == [] then 0
    else Walk(moves, play, count, play(p, ms[0]), depth) + WalkSum(moves, play, count, p, ms[1..], depth)
  }

  /// The leaves of the move tree to `depth`, every ply played out.
  function Leaves<P, M>(moves: P -> seq<M>, play: (P, M) -> P, p: P, depth: nat): nat
    decreases depth, 2, 0
  {
    if depth == 0 then 1 else LeavesSum(moves, play, p, moves(p), depth - 1)
  }

  /// The leaves to `depth` below each of `ms`, added up.
  function LeavesSum<P, M>(moves: P -> seq<M>, play: (P, M) -> P, p: P, ms: seq<M>, depth: nat): nat
    decreases depth + 1, 0, |ms|
  {
    if ms == [] then 0
    else Leaves(moves, play, play(p, ms[0]), depth) + LeavesSum(moves, play, p, ms[1..], depth)
  }

  /// The walk to `depth` can be taken: depth 0 asks nothing of the board,
  /// deeper `ok` holds on it and from depth 2 on every move is `legal` and
  /// leads to a walk that can be taken.
  predicate Walkable<P, M>(moves: P -> seq<M>, play: (P, M) -> P, ok: P -> bool, legal: (P, M) -> bool, p: P, depth: nat)
    decreases depth, 2, 0
  {
    depth >= 1 ==> ok(p) && WalkableOn(moves, play, ok, legal, p, depth)
  }

  /// From depth 2 on, every move of the board is `legal` and leads to a
  /// walk that can be taken.
  predicate WalkableOn<P, M>(moves: P -> seq<M>, play: (P, M) -> P, ok: P -> bool, legal: (P, M) -> bool, p: P, depth: nat)
    decreases depth, 1, 0
  {
    depth >= 2 ==> WalkableAll(moves, play, ok, legal, p, moves(p), depth - 1)
  }

  /// Each of `ms` is `legal` on p and leads to a walk to `depth` that can
  /// be taken.
  predicate WalkableAll<P, M>(moves: P -> seq<M>, play: (P, M) -> P, ok: P -> bool, legal: (P, M) -> bool, p: P, ms: seq<M>, depth: nat)
    decreases depth + 1, 0, |ms|
  {
    ms != [] ==>
      legal(p, ms[0]) && Walkable(moves, play, ok, legal, play(p, ms[0]), depth)
      && WalkableAll(moves, play, ok, legal, p, ms[1..], depth)
  }

  /// `good` holds on every board of the move tree to `depth`.
  predicate Along<P, M>(moves: P -> seq<M>, play: (P, M) -> P, good: P -> bool, p: P, depth: nat)
    decreases depth, 2, 0
  {
    good(p) && AlongOn(moves, play, good, p, depth)
  }

  /// From depth 1 on, `good` holds along the tree below every move.
  predicate AlongOn<P, M>(moves: P -> seq<M>, play: (P, M) -> P, good: P -> bool, p: P, depth: nat)
    decreases depth, 1, 0
  {
    depth >= 1 ==> AlongAll(moves, play, good, p, moves(p), depth - 1)
  }

  /// `good` holds along the tree to `depth` below each of `ms`.
  predicate AlongAll<P, M>(moves: P -> seq<M>, play: (P, M) -> P, good: P -> bool, p: P, ms: seq<M>, depth: nat)
    decreases depth + 1, 0, |ms|
  {
    ms != [] ==>
      Along(moves, play, good, play(p, ms[0]), depth) && AlongAll(moves, play, good, p, ms[1..], depth)
  }

  /// From depth 2 on the walk is the sum over the board's moves of the
  /// walks one ply less deep, `below`. (Callers name the smaller depth
  /// themselves, which keeps their proofs cheap.)
  lemma WalkDeep<P, M>(moves: P -> seq<M>, play: (P, M) -> P, count: P -> nat, p: P, depth: nat, below: nat)
    requires depth >= 2 && below == depth - 1
    ensures Walk(moves, play, count, p, depth) == WalkSum(moves, play, count, p, moves(p), below)
  {
    assert WalkOn(moves, play, count, p, depth) == WalkSum(moves, play, count, p, moves(p), below);
  }

  /// At depth 1 the walk is the board's count.
  lemma WalkOne<P, M>(moves: P -> seq<M>, play: (P, M) -> P, count: P -> nat, p: P)
    ensures Walk(moves, play, count, p, 1) == count(p)
  {
    assert WalkOn(moves, play, count, p, 1) == count(p);
  }

  /// A walk that can be taken from depth 2 on goes on with every move,
  /// one ply less deep, `below`.
  lemma WalkableChildren<P, M>(moves: P -> seq<M>, play: (P, M) -> P, ok: P -> bool, legal: (P, M) -> bool, p: P, depth: nat, below: nat)
    requires Walkable(moves, play, ok, legal, p, depth) && depth >= 2 && below == depth - 1
    ensures WalkableAll(moves, play, ok, legal, p, moves(p), below)
  {
    assert WalkableOn(moves, play, ok, legal, p, depth);
  }

  /// One ply from the end every move is one leaf.
  lemma {:induction false} LeavesSumOne<P, M>(moves: P -> seq<M>, play: (P, M) -> P, p: P, ms: seq<M>)
    ensures LeavesSum(moves, play, p, ms, 0) == |ms|
    decreases |ms|
  {
    if ms != [] {
      LeavesSumOne(moves, play, p, ms[1..]);
    }
  }

  /// The walk counts the leaves of the move tree when the count it uses
  /// one ply from the end is the number of moves on every board of the
  /// tree.
  lemma {:induction false} WalkCountsLeaves<P, M>(moves: P -> seq<M>, play: (P, M) -> P, count: P -> nat, good: P -> bool, p: P, depth: nat)
    requires Along(moves, play, good, p, depth)
    requires forall q :: good(q) ==> count(q) == |moves(q)|
    ensures Walk(moves, play, count, p, depth) == Leaves(moves, play, p, depth)
    decreases depth, 1, 0
  {
    if depth == 1 {
      WalkOne(moves, play, count, p);
      LeavesSumOne(moves, play, p, moves(p));
    } else if depth >= 2 {
      WalkDeep(moves, play, count, p, depth, depth - 1);
      assert AlongOn(moves, play, good, p, depth);
      SumsCountLeaves(moves, play, count, good, p, moves(p), depth - 1);
    }
  }

  /// `WalkCountsLeaves` below each of `ms`.
  lemma {:induction false} SumsCountLeaves<P, M>(moves: P -> seq<M>, play: (P, M) -> P, count: P -> nat, good: P -> bool, p: P, ms: seq<M>, depth: nat)
    requires AlongAll(moves, play, good, p, ms, depth)
    requires forall q :: good(q) ==> count(q) == |moves(q)|
    ensures WalkSum(moves, play, count, p, ms, depth) == LeavesSum(moves, play, p, ms, depth)
    decreases depth + 1, 0, |ms|
  {
    if ms != [] {
      WalkCountsLeaves(moves, play, count, good, play(p, ms[0]), depth);
      SumsCountLeaves(moves, play, count, good, p, ms[1..], depth);
    }
  }
}
