// Board geometry used to state what the attack tables mean: which squares
// lie in a given direction from a square, and how far the edge is. These
// definitions are independent of the bitboard shifts the tables are built
// from.
module Geometry {
  import opened Squares
  import opened Directions

  /// A square's index is eight times its rank index plus its file index.
  lemma Coords(s: Square)
    ensures s == 8 * RankIndex(s) + FileIndex(s)
    ensures 0 <= RankIndex(s) < 8 && 0 <= FileIndex(s) < 8
  {
  }

  /// Two squares with the same rank and file are the same square.
  lemma CoordsInjective(s: Square, t: Square)
    requires RankIndex(s) == RankIndex(t) && FileIndex(s) == FileIndex(t)
    ensures s == t
  {
    Coords(s);
    Coords(t);
  }

  /// t is k >= 1 steps away from s in direction d.
  predicate InDir(s: Square, t: Square, d: Direction)
  {
    var dr := RankIndex(t) - RankIndex(s);
    var df := FileIndex(t) - FileIndex(s);
    match d
    case Up => df == 0 && dr > 0
    case Down => df == 0 && dr < 0
    case Left => dr == 0 && df < 0
    case Right => dr == 0 && df > 0
    case UpLeft => dr > 0 && df == -dr
    case UpRight => dr > 0 && df == dr
    case DownLeft => dr < 0 && df == dr
    case DownRight => dr < 0 && df == -dr
  }

  /// The direction pointing the other way.
  function Opposite(d: Direction): (o: Direction)
    ensures RankStep(o) == -RankStep(d) && FileStep(o) == -FileStep(d)
  {
    match d
    case Up => Down
    case Down => Up
    case Left => Right
    case Right => Left
    case UpLeft => DownRight
    case UpRight => DownLeft
    case DownLeft => UpRight
    case DownRight => UpLeft
  }

  predicate IsDiagonal(d: Direction)
  {
    d == UpLeft || d == UpRight || d == DownLeft || d == DownRight
  }

  predicate IsOrthogonal(d: Direction)
  {
    !IsDiagonal(d)
  }

  /// The directions whose squares have increasing indices.
  predicate Forward(d: Direction)
  {
    d == Up || d == Right || d == UpLeft || d == UpRight
  }

  function Min(a: int, b: int): int
  {
    if a <= b then a else b
  }

  /// The number of steps from s in direction d before the board ends.
  function Dist(s: Square, d: Direction): nat
  {
    var up := 7 - RankIndex(s);
    var down := RankIndex(s);
    var left := FileIndex(s);
    var right := 7 - FileIndex(s);
    match d
    case Up => up
    case Down => down
    case Left => left
    case Right => right
    case UpLeft => Min(up, left)
    case UpRight => Min(up, right)
    case DownLeft => Min(down, left)
    case DownRight => Min(down, right)
  }

  /// A square is on the edge for d exactly when no step in d is left.
  lemma OnEdgeDist(s: Square, d: Direction)
    ensures OnEdge(s, d) <==> Dist(s, d) == 0
    ensures !OnEdge(s, d) ==> Dist(Step(s, d), d) == Dist(s, d) - 1
  {
  }

  /// From the far side, the direction reverses.
  lemma InDirOpposite(s: Square, t: Square, d: Direction)
    ensures InDir(s, t, d) <==> InDir(t, s, Opposite(d))
  {
  }

  /// Going on in the same direction stays in that direction.
  lemma InDirTransitive(a: Square, b: Square, c: Square, d: Direction)
    requires InDir(a, b, d) && InDir(b, c, d)
    ensures InDir(a, c, d)
  {
  }

  /// Two squares in the same direction from s: one is beyond the other.
  lemma InDirTrichotomy(s: Square, t: Square, b: Square, d: Direction)
    requires InDir(s, t, d) && InDir(s, b, d)
    ensures t == b || InDir(t, b, d) || InDir(b, t, d)
  {
    if RankIndex(t) == RankIndex(b) && FileIndex(t) == FileIndex(b) {
      CoordsInjective(t, b);
    }
  }

  /// Along a forward direction square indices increase, along the others
  /// they decrease.
  lemma InDirOrder(u: Square, v: Square, d: Direction)
    requires InDir(u, v, d)
    ensures Forward(d) ==> u < v
    ensures !Forward(d) ==> u > v
  {
    Coords(u);
    Coords(v);
  }

  /// A step lands in the direction, and everything further on from s is the
  /// step itself or further on from the step.
  lemma InDirStep(s: Square, t: Square, d: Direction)
    requires !OnEdge(s, d)
    ensures InDir(s, t, d) <==> t == Step(s, d) || InDir(Step(s, d), t, d)
  {
    var n := Step(s, d);
    if RankIndex(t) == RankIndex(n) && FileIndex(t) == FileIndex(n) {
      CoordsInjective(t, n);
    }
  }

  /// Nothing lies beyond the edge.
  lemma InDirEdge(s: Square, t: Square, d: Direction)
    requires OnEdge(s, d)
    ensures !InDir(s, t, d)
  {
  }

  /// A square never lies in any direction from itself.
  lemma InDirIrreflexive(s: Square, d: Direction)
    ensures !InDir(s, s, d)
  {
  }

  /// The direction from one square to another is unique.
  lemma InDirUnique(a: Square, b: Square, d1: Direction, d2: Direction)
    requires InDir(a, b, d1) && InDir(a, b, d2)
    ensures d1 == d2
  {
  }

  /// Three squares pairwise joined along lines of one kind (all diagonal or
  /// all orthogonal) lie on one line: if b is in direction d from a, then a
  /// square reached from both a and b along lines of that kind is reached
  /// along d or its opposite.
  lemma Collinear(a: Square, b: Square, t: Square, d: Direction, d1: Direction, d2: Direction)
    requires IsDiagonal(d1) == IsDiagonal(d) && IsDiagonal(d2) == IsDiagonal(d)
    requires InDir(a, b, d) && InDir(a, t, d1) && InDir(b, t, d2)
    ensures d1 == d || d1 == Opposite(d)
    ensures d2 == d || d2 == Opposite(d)
  {
  }
}
