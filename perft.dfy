// `MoveGen::perft` (src/chessboard/movegen/movegen.rs): the number of
// leaf positions of the legal move tree to a given depth, with the last
// ply counted by `count_legal_moves` instead of being played out. The
// recursion itself is the generic walk of `GameTrees`, instantiated with
// the legal moves of the generator and `Play`.
module Perfts {
  import opened BitBoards
  import opened Positions
  import opened MoveLists
  import opened Generator
  import opened MoveGens
  import opened MoveSequences
  import opened MoveIterators
  import opened ChessBoards
  import opened GameTrees
  import CT = ChessboardTables

  /// The moves `MoveGen::legal` yields on the board, in order.
  ghost function LegalMoves(tables: CT.Build, p: Position): (moves: seq<Move>)
    requires Ready(tables, p)
    ensures Located(p, LegalEntries(tables, p))
    ensures moves == ListMoves(p, LegalEntries(tables, p))
  {
    GeneratedLocated(tables, p, false);
    ListMoves(p, LegalEntries(tables, p))
  }

  /// What `count_legal_moves` returns on the board.
  ghost function LegalCount(tables: CT.Build, p: Position): (count: nat)
    requires Ready(tables, p)
    ensures EpOffPromotionRank(p) ==> count == |LegalMoves(tables, p)|
  {
    GeneratedLocated(tables, p, false);
    if EpOffPromotionRank(p) then ListMovesCount(p, LegalEntries(tables, p)); Count(p, LegalEntries(tables, p))
    else Count(p, LegalEntries(tables, p))
  }

  // The game the walk runs over. Boards the generator cannot be asked
  // about (no tables, no king) have no moves, and a move that cannot be
  // made leaves the board as it is; `Playable` rules both out on every
  // board and move `perft` reaches.

  ghost function Moves(tables: CT.Build): Position -> seq<Move>
  {
    p => if Ready(tables, p) then LegalMoves(tables, p) else []
  }

  ghost function Child(): (Position, Move) -> Position
  {
    (p, mv) => if CanMake(p, mv) then Play(p, mv) else p
  }

  ghost function Counted(tables: CT.Build): Position -> nat
  {
    p => if Ready(tables, p) then LegalCount(tables, p) else 0
  }

  ghost function ReadyOf(tables: CT.Build): Position -> bool
  {
    p => Ready(tables, p)
  }

  ghost function CanMakeOf(): (Position, Move) -> bool
  {
    (p, mv) => CanMake(p, mv)
  }

  ghost function EpGood(tables: CT.Build): Position -> bool
  {
    p => Ready(tables, p) && EpOffPromotionRank(p)
  }

  /// The walk to `depth` never panics: from depth 1 on every board on it
  /// has built tables and a king for the side to move, and every legal
  /// move made on the way (from depth 2 on; depth 1 only counts) can be
  /// made.
  ghost predicate Playable(tables: CT.Build, p: Position, depth: nat)
  {
    Walkable(Moves(tables), Child(), ReadyOf(tables), CanMakeOf(), p, depth)
  }

  /// What `perft` returns.
  ghost function PerftValue(tables: CT.Build, p: Position, depth: nat): nat
  {
    Walk(Moves(tables), Child(), Counted(tables), p, depth)
  }

  /// The leaves of the legal move tree to `depth`, every ply played out.
  ghost function LeafCount(tables: CT.Build, p: Position, depth: nat): nat
  {
    Leaves(Moves(tables), Child(), p, depth)
  }

  /// Every board of the legal move tree to `depth` can be asked for its
  /// moves and has its en-passant square off the promotion rank of the
  /// side to move, as on every board reached by play.
  ghost predicate EpSound(tables: CT.Build, p: Position, depth: nat)
  {
    Along(Moves(tables), Child(), EpGood(tables), p, depth)
  }

  /// The depth-one shortcut is sound: on boards whose en-passant square
  /// is where play puts it, `perft` counts exactly the leaves of the
  /// legal move tree.
  lemma PerftCountsLeaves(tables: CT.Build, p: Position, depth: nat)
    requires EpSound(tables, p, depth)
    ensures PerftValue(tables, p, depth) == LeafCount(tables, p, depth)
  {
    forall q | EpGood(tables)(q)
      ensures Counted(tables)(q) == |Moves(tables)(q)|
    {
      assert LegalCount(tables, q) == |LegalMoves(tables, q)|;
    }
    WalkCountsLeaves(Moves(tables), Child(), Counted(tables), EpGood(tables), p, depth);
  }

  /// One ply deep `perft` is the number of legal moves.
  lemma PerftOne(tables: CT.Build, p: Position)
    requires Ready(tables, p) && EpOffPromotionRank(p)
    ensures PerftValue(tables, p, 1) == |LegalMoves(tables, p)|
  {
    WalkOne(Moves(tables), Child(), Counted(tables), p);
  }

  /// Each of `moves` can be made on `p`, and the walk to `depth` from the
  /// board it leads to can be taken.
  ghost predicate ChildrenPlayable(tables: CT.Build, p: Position, moves: seq<Move>, depth: nat)
  {
    WalkableAll(Moves(tables), Child(), ReadyOf(tables), CanMakeOf(), p, moves, depth)
  }

  /// From depth 2 on, every legal move of a board `perft` can walk leads
  /// to a walk one ply less deep, `below`, that can be taken.
  lemma PlayableChildren(tables: CT.Build, p: Position, depth: nat, below: nat)
    requires Playable(tables, p, depth) && depth >= 2 && below == depth - 1
    ensures ChildrenPlayable(tables, p, Moves(tables)(p), below)
  {
    WalkableChildren(Moves(tables), Child(), ReadyOf(tables), CanMakeOf(), p, depth, below);
  }

  /// The first of `moves` can be made on `p` and leads to a walk that
  /// can be taken, so do the others, and the walks below them add up to
  /// the value of the first child and the sum over the rest.
  lemma FirstChild(tables: CT.Build, p: Position, moves: seq<Move>, depth: nat)
    requires ChildrenPlayable(tables, p, moves, depth) && moves != []
    ensures CanMake(p, moves[0]) && Playable(tables, Play(p, moves[0]), depth)
    ensures ChildrenPlayable(tables, p, moves[1..], depth)
    ensures WalkSum(Moves(tables), Child(), Counted(tables), p, moves, depth)
      == PerftValue(tables, Play(p, moves[0]), depth) + WalkSum(Moves(tables), Child(), Counted(tables), p, moves[1..], depth)
  {
    assert CanMakeOf()(p, moves[0]);
    assert Child()(p, moves[0]) == Play(p, moves[0]);
  }

  /// `perft`: at depth 0 one node, at depth 1 `count_legal_moves`, and
  /// otherwise the walks below the legal moves added up. The board
  /// itself is not changed.
  method Perft(chessboard: ChessBoard, depth: nat) returns (nodes: nat)
    requires chessboard.Valid() && Playable(chessboard.tables, chessboard.State(), depth)
    ensures nodes == PerftValue(chessboard.tables, chessboard.State(), depth)
    decreases depth, 2
  {
    if depth == 0 {
      return 1;
    } else if depth == 1 {
      nodes := PerftCount(chessboard);
    } else {
      nodes := PerftDeep(chessboard, depth);
    }
  }

  /// `perft` at depth 1: `count_legal_moves` of the board.
  method PerftCount(chessboard: ChessBoard) returns (nodes: nat)
    requires chessboard.Valid() && Playable(chessboard.tables, chessboard.State(), 1)
    ensures nodes == PerftValue(chessboard.tables, chessboard.State(), 1)
  {
    ghost var p := chessboard.State();
    WalkOne(Moves(chessboard.tables), Child(), Counted(chessboard.tables), p);
    assert ReadyOf(chessboard.tables)(p);
    nodes := CountLegalMoves(chessboard.tables, chessboard.State());
  }

  /// `perft` from depth 2 on: the legal iterator of the board
  /// (`MoveGen::legal`), walked by `PerftChildren` one ply less deep.
  method PerftDeep(chessboard: ChessBoard, depth: nat) returns (nodes: nat)
    requires chessboard.Valid() && Playable(chessboard.tables, chessboard.State(), depth) && depth >= 2
    ensures nodes == PerftValue(chessboard.tables, chessboard.State(), depth)
    decreases depth, 1
  {
    var below := depth - 1;
    ghost var p := chessboard.State();
    WalkDeep(Moves(chessboard.tables), Child(), Counted(chessboard.tables), p, depth, below);
    PlayableChildren(chessboard.tables, p, depth, below);
    assert ReadyOf(chessboard.tables)(p);
    var movegen := new MoveGen(chessboard.tables, chessboard.State(), false);
    nodes := PerftChildren(chessboard, movegen, below);
  }

  /// The loop of `perft`: for each move the legal iterator still yields,
  /// a clone of the board with the move made, walked to `depth`, the
  /// results added up; the iterator ends exhausted.
  method PerftChildren(chessboard: ChessBoard, movegen: MoveGen, depth: nat) returns (nodes: nat)
    requires chessboard.Valid() && CT.Ready(chessboard.tables)
    requires movegen.Valid() && movegen.position == chessboard.State()
    requires ChildrenPlayable(chessboard.tables, chessboard.State(), movegen.remaining, depth)
    modifies movegen, movegen.moves, movegen.moves.data
    ensures movegen.Valid() && movegen.remaining == []
    ensures nodes == WalkSum(Moves(chessboard.tables), Child(), Counted(chessboard.tables), chessboard.State(), old(movegen.remaining), depth)
    decreases depth, 3
  {
    var tables := chessboard.tables;
    ghost var p := chessboard.State();
    ghost var all := movegen.remaining;
    nodes := 0;
    while true
      invariant movegen.Valid() && movegen.position == p
      invariant ChildrenPlayable(tables, p, movegen.remaining, depth)
      invariant nodes + WalkSum(Moves(tables), Child(), Counted(tables), p, movegen.remaining, depth)
        == WalkSum(Moves(tables), Child(), Counted(tables), p, all, depth)
      decreases |movegen.remaining|
    {
      ghost var rest := movegen.remaining;
      var mv := movegen.Next();
      if mv.None? {
        break;
      }
      FirstChild(tables, p, rest, depth);
      var child := chessboard.GetChild(mv.value);
      var childNodes := Perft(child, depth);
      nodes := nodes + childNodes;
    }
  }
}
