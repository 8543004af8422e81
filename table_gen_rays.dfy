// The ray table (generate_rays in src/table_gen/general.rs): for every
// square and direction, the squares a piece could slide over on an empty
// board before reaching the edge.
module TableGenRays {
  import opened Squares
  import opened BitBoards
  import opened Directions
  import opened Geometry

  /// `RAYS[s][d]`: the squares reached by repeatedly shifting s one step in
  /// direction d until the edge for d is reached.
  function Ray(s: Square, d: Direction): BitBoard
    decreases Dist(s, d)
  {
    OnEdgeDist(s, d);
    if OnEdge(s, d) then EMPTY else FromSquare(Step(s, d)) + Ray(Step(s, d), d)
  }

  /// A ray holds exactly the squares lying in its direction from its origin.
  lemma {:induction false} RayContains(s: Square, d: Direction, t: Square)
    ensures t in Ray(s, d) <==> InDir(s, t, d)
    decreases Dist(s, d)
  {
    OnEdgeDist(s, d);
    if OnEdge(s, d) {
      InDirEdge(s, t, d);
    } else {
      RayContains(Step(s, d), d, t);
      InDirStep(s, t, d);
    }
  }

  /// A ray holds Dist(s, d) squares.
  lemma {:induction false} RaySize(s: Square, d: Direction)
    ensures |Ray(s, d)| == Dist(s, d)
    decreases Dist(s, d)
  {
    OnEdgeDist(s, d);
    if !OnEdge(s, d) {
      RaySize(Step(s, d), d);
      RayContains(Step(s, d), d, Step(s, d));
      InDirIrreflexive(Step(s, d), d);
    }
  }

  /// The inner loop of `generate_rays`: shifts a single-square board in
  /// direction d until it overlaps the edge for d, collecting every square
  /// passed over.
  method ShiftUntilEdge(s: Square, d: Direction) returns (ray: BitBoard)
    ensures ray == Ray(s, d)
  {
    var pos := FromSquare(s);
    ghost var cur: Square := s;
    ray := EMPTY;
    while !Overlaps(Edge(d), pos)
      invariant pos == FromSquare(cur)
      invariant ray + Ray(cur, d) == Ray(s, d)
      decreases Dist(cur, d)
    {
      OverlapsSquare(Edge(d), cur);
      OnEdgeDist(cur, d);
      ShiftDirStep(cur, d);
      cur := Step(cur, d);
      pos := ShiftDir(pos, d);
      ray := ray + pos;
    }
    OverlapsSquare(Edge(d), cur);
  }

  /// `generate_rays`: the 64 x 8 table of rays.
  method GenerateRays() returns (rays: array2<BitBoard>)
    ensures fresh(rays)
    ensures rays.Length0 == 64 && rays.Length1 == 8
    ensures forall s: Square, i :: 0 <= i < 8 ==> rays[s, i] == Ray(s, DIRS[i])
  {
    rays := new BitBoard[64, 8]((_, _) => EMPTY);
    for s := 0 to 64
      invariant forall s': Square, i :: s' < s && 0 <= i < 8 ==> rays[s', i] == Ray(s', DIRS[i])
    {
      for i := 0 to 8
        invariant forall s': Square, i' :: s' < s && 0 <= i' < 8 ==> rays[s', i'] == Ray(s', DIRS[i'])
        invariant forall i' :: 0 <= i' < i ==> rays[s, i'] == Ray(s, DIRS[i'])
      {
        rays[s, i] := ShiftUntilEdge(s, DIRS[i]);
      }
    }
  }
}
