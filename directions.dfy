// The eight compass directions pieces move in (src/defs/direction.rs), and
// shifting a bitboard one step in a direction (src/defs/bitboard.rs).
module Directions {
  import opened Squares
  import opened BitBoards
  import Ranks
  import Files

  datatype Direction = Up | Down | Left | Right | UpLeft | UpRight | DownLeft | DownRight

  /// All directions in index order.
  const DIRS: seq<Direction> := [Up, Down, Left, Right, UpLeft, UpRight, DownLeft, DownRight]

  /// Position of a direction in the per-direction tables.
  function Index(d: Direction): (i: nat)
    ensures i < 8 && DIRS[i] == d
  {
    match d
    case Up => 0
    case Down => 1
    case Left => 2
    case Right => 3
    case UpLeft => 4
    case UpRight => 5
    case DownLeft => 6
    case DownRight => 7
  }

  /// How many ranks one step in the direction moves (+1 is towards rank 8).
  function RankStep(d: Direction): int
  {
    match d
    case Up | UpLeft | UpRight => 1
    case Down | DownLeft | DownRight => -1
    case Left | Right => 0
  }

  /// How many files one step in the direction moves (+1 is towards file H).
  function FileStep(d: Direction): int
  {
    match d
    case Right | UpRight | DownRight => 1
    case Left | UpLeft | DownLeft => -1
    case Up | Down => 0
  }

  /// True when one step from s in direction d leaves the board.
  predicate OnEdge(s: Square, d: Direction)
  {
    (RankStep(d) == 1 && RankIndex(s) == 7) || (RankStep(d) == -1 && RankIndex(s) == 0)
    || (FileStep(d) == -1 && FileIndex(s) == 0) || (FileStep(d) == 1 && FileIndex(s) == 7)
  }

  /// The square one step from s in direction d.
  function Step(s: Square, d: Direction): (t: Square)
    requires !OnEdge(s, d)
    ensures RankIndex(t) == RankIndex(s) + RankStep(d)
    ensures FileIndex(t) == FileIndex(s) + FileStep(d)
  {
    s + 8 * RankStep(d) + FileStep(d)
  }

  /// `Direction::edge`: the squares from which a step in the direction
  /// would leave the board.
  function Edge(d: Direction): (e: BitBoard)
    ensures forall s: Square :: s in e <==> OnEdge(s, d)
  {
    match d
    case Up => FromRank(Ranks.Eighth)
    case Down => FromRank(Ranks.First)
    case Left => FromFile(Files.A)
    case Right => FromFile(Files.H)
    case UpLeft => FromRank(Ranks.Eighth) + FromFile(Files.A)
    case UpRight => FromRank(Ranks.Eighth) + FromFile(Files.H)
    case DownLeft => FromRank(Ranks.First) + FromFile(Files.A)
    case DownRight => FromRank(Ranks.First) + FromFile(Files.H)
  }

  /// `BitBoard::shift_dir`: a diagonal step is a rank step followed by a file step.
  function ShiftDir(b: BitBoard, d: Direction): BitBoard
  {
    match d
    case Up => BitBoards.Up(b)
    case Down => BitBoards.Down(b)
    case Left => BitBoards.Left(b)
    case Right => BitBoards.Right(b)
    case UpLeft => BitBoards.Left(BitBoards.Up(b))
    case UpRight => BitBoards.Right(BitBoards.Up(b))
    case DownLeft => BitBoards.Left(BitBoards.Down(b))
    case DownRight => BitBoards.Right(BitBoards.Down(b))
  }

  /// Away from the edge, shifting a single square in a direction gives the
  /// neighbouring square in that direction.
  lemma ShiftDirStep(s: Square, d: Direction)
    requires !OnEdge(s, d)
    ensures ShiftDir(FromSquare(s), d) == FromSquare(Step(s, d))
  {
    var t := Step(s, d);
    assert t in ShiftDir(FromSquare(s), d);
  }
}
