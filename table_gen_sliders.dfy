// Ray-cast slider attacks and relevant-occupancy masks
// (src/table_gen/sliders.rs): the ground truth the magic tables are built
// from and checked against.
module TableGenSliders {
  import opened Squares
  import opened BitBoards
  import opened Directions
  import opened Geometry
  import opened TableGenRays
  import Ranks
  import Files

  /// The two sliding pieces that get magic tables.
  datatype Slider = Bishop | Rook

  /// The directions a slider moves in: diagonals for the bishop, ranks and
  /// files for the rook.
  predicate Moves(kind: Slider, d: Direction)
  {
    if kind == Bishop then IsDiagonal(d) else IsOrthogonal(d)
  }

  /// t lies in direction d from s and no occupied square is strictly
  /// between them: a slider on s sees t along d.
  predicate Seen(s: Square, t: Square, d: Direction, occ: BitBoard)
  {
    InDir(s, t, d) && forall u: Square :: InDir(s, u, d) && InDir(u, t, d) ==> u !in occ
  }

  /// `ray_attacks`: the ray from s in direction d, cut after the first
  /// occupied square. The first blocker is the lowest index along the
  /// directions whose indices increase and the highest along the others;
  /// the ray beyond it is XOR-ed away.
  function RayAttacks(s: Square, d: Direction, occ: BitBoard): (r: BitBoard)
    ensures r <= Ray(s, d)
  {
    var attacks := Ray(s, d);
    var blockers := attacks * occ;
    if IsEmpty(blockers) then attacks
    else
      var blocker := if Forward(d) then ScanForward(blockers).value else ScanReverse(blockers).value;
      RayContains(s, d, blocker);
      RayBeyond(s, blocker, d);
      Xor(attacks, Ray(blocker, d))
  }

  /// The ray from a square further along d lies inside the ray from s.
  lemma RayBeyond(s: Square, b: Square, d: Direction)
    requires InDir(s, b, d)
    ensures Ray(b, d) <= Ray(s, d)
  {
    forall t | t in Ray(b, d)
      ensures t in Ray(s, d)
    {
      RayContains(b, d, t);
      InDirTransitive(s, b, t, d);
      RayContains(s, d, t);
    }
  }

  /// Every blocker on the ray is the nearest blocker b or lies beyond it.
  lemma NearestBlocker(s: Square, d: Direction, occ: BitBoard, b: Square, u: Square)
    requires b in Ray(s, d) * occ && u in Ray(s, d) * occ
    requires Forward(d) ==> b <= u
    requires !Forward(d) ==> u <= b
    ensures u == b || InDir(b, u, d)
  {
    RayContains(s, d, b);
    RayContains(s, d, u);
    InDirTrichotomy(s, u, b, d);
    if InDir(u, b, d) {
      InDirOrder(u, b, d);
    }
  }

  /// With no blocker on the ray, everything on it is seen.
  lemma UnblockedSeen(s: Square, d: Direction, occ: BitBoard, t: Square)
    requires Ray(s, d) * occ == EMPTY
    ensures t in Ray(s, d) <==> Seen(s, t, d, occ)
  {
    RayContains(s, d, t);
    forall u: Square | InDir(s, u, d) && InDir(u, t, d)
      ensures u !in occ
    {
      RayContains(s, d, u);
      assert u !in Ray(s, d) * occ;
    }
  }

  /// With nearest blocker b, a square is seen exactly when it is on the ray
  /// and not beyond b.
  lemma BlockedSeen(s: Square, d: Direction, occ: BitBoard, b: Square, t: Square)
    requires b in Ray(s, d) * occ
    requires forall u :: u in Ray(s, d) * occ ==> (Forward(d) ==> b <= u) && (!Forward(d) ==> u <= b)
    ensures Seen(s, t, d, occ) <==> t in Ray(s, d) && t !in Ray(b, d)
  {
    RayContains(s, d, t);
    RayContains(s, d, b);
    RayContains(b, d, t);
    if InDir(s, t, d) && !InDir(b, t, d) {
      forall u: Square | InDir(s, u, d) && InDir(u, t, d)
        ensures u !in occ
      {
        if u in occ {
          RayContains(s, d, u);
          NearestBlocker(s, d, occ, b, u);
          if u != b {
            InDirTransitive(b, u, t, d);
          }
        }
      }
    }
  }

  /// A ray-cast attack holds exactly the squares seen along its direction:
  /// everything up to and including the first blocker, nothing beyond it.
  lemma RayAttacksSeen(s: Square, d: Direction, occ: BitBoard, t: Square)
    ensures t in RayAttacks(s, d, occ) <==> Seen(s, t, d, occ)
  {
    var blockers := Ray(s, d) * occ;
    if IsEmpty(blockers) {
      UnblockedSeen(s, d, occ, t);
    } else {
      var b := if Forward(d) then ScanForward(blockers).value else ScanReverse(blockers).value;
      BlockedSeen(s, d, occ, b, t);
    }
  }

  /// A square next to s along d is always seen.
  lemma SeenStep(s: Square, d: Direction, occ: BitBoard)
    requires !OnEdge(s, d)
    ensures Seen(s, Step(s, d), d, occ)
  {
    var t := Step(s, d);
    InDirStep(s, t, d);
    forall u: Square | InDir(s, u, d) && InDir(u, t, d)
      ensures false
    {
      InDirStep(s, u, d);
      InDirIrreflexive(t, d);
      if u != t {
        InDirTransitive(t, u, t, d);
      }
    }
  }

  /// `get_bishop_attacks_slow`: the union of the four diagonal rays.
  function BishopAttacksSlow(s: Square, occ: BitBoard): BitBoard
  {
    RayAttacks(s, UpLeft, occ) + RayAttacks(s, UpRight, occ)
    + RayAttacks(s, DownLeft, occ) + RayAttacks(s, DownRight, occ)
  }

  /// `get_rook_attacks_slow`: the union of the four orthogonal rays.
  function RookAttacksSlow(s: Square, occ: BitBoard): BitBoard
  {
    RayAttacks(s, Up, occ) + RayAttacks(s, Down, occ)
    + RayAttacks(s, Left, occ) + RayAttacks(s, Right, occ)
  }

  /// The ray-cast attacks of either slider.
  function AttacksSlow(kind: Slider, s: Square, occ: BitBoard): BitBoard
  {
    match kind
    case Bishop => BishopAttacksSlow(s, occ)
    case Rook => RookAttacksSlow(s, occ)
  }

  /// A slider attacks exactly the squares it sees along one of its own
  /// The union of four ray attacks holds exactly what one of the rays sees.
  lemma FourRaysSeen(s: Square, occ: BitBoard, t: Square, d1: Direction, d2: Direction, d3: Direction, d4: Direction)
    ensures t in RayAttacks(s, d1, occ) + RayAttacks(s, d2, occ) + RayAttacks(s, d3, occ) + RayAttacks(s, d4, occ)
      <==> Seen(s, t, d1, occ) || Seen(s, t, d2, occ) || Seen(s, t, d3, occ) || Seen(s, t, d4, occ)
  {
    RayAttacksSeen(s, d1, occ, t);
    RayAttacksSeen(s, d2, occ, t);
    RayAttacksSeen(s, d3, occ, t);
    RayAttacksSeen(s, d4, occ, t);
  }

  /// A slider attacks exactly the squares it sees along one of its own
  /// directions.
  lemma AttacksSlowSeen(kind: Slider, s: Square, occ: BitBoard, t: Square)
    ensures t in AttacksSlow(kind, s, occ) <==> exists d :: Moves(kind, d) && Seen(s, t, d, occ)
  {
    var (d1, d2, d3, d4) := if kind == Bishop then (UpLeft, UpRight, DownLeft, DownRight) else (Up, Down, Left, Right);
    FourRaysSeen(s, occ, t, d1, d2, d3, d4);
    assert Moves(kind, d1) && Moves(kind, d2) && Moves(kind, d3) && Moves(kind, d4);
    if exists d :: Moves(kind, d) && Seen(s, t, d, occ) {
      var d :| Moves(kind, d) && Seen(s, t, d, occ);
      assert d == d1 || d == d2 || d == d3 || d == d4;
    }
  }

  /// Every square has a neighbour along one of each slider's directions,
  /// so slider attacks are never empty.
  lemma AttacksNonEmpty(kind: Slider, s: Square, occ: BitBoard)
    ensures AttacksSlow(kind, s, occ) != EMPTY
  {
    var d := match kind
      case Bishop =>
        if RankIndex(s) < 7 then (if FileIndex(s) < 7 then UpRight else UpLeft)
        else (if FileIndex(s) < 7 then DownRight else DownLeft)
      case Rook => if RankIndex(s) < 7 then Up else Down;
    SeenStep(s, d, occ);
    AttacksSlowSeen(kind, s, occ, Step(s, d));
  }

  /// `get_bishop_mask`: the empty-board bishop attacks without the border
  /// ranks and files.
  function BishopMask(s: Square): BitBoard
  {
    var mask := BishopAttacksSlow(s, EMPTY);
    mask * Neg(FromRank(Ranks.First)) * Neg(FromRank(Ranks.Eighth))
    * Neg(FromFile(Files.A)) * Neg(FromFile(Files.H))
  }

  /// `get_rook_mask`: the empty-board rook attacks without each border
  /// rank or file the square is not itself on.
  function RookMask(s: Square): BitBoard
  {
    var mask := RookAttacksSlow(s, EMPTY);
    var mask := if Rank(s) != Ranks.First then mask * Neg(FromRank(Ranks.First)) else mask;
    var mask := if Rank(s) != Ranks.Eighth then mask * Neg(FromRank(Ranks.Eighth)) else mask;
    var mask := if File(s) != Files.A then mask * Neg(FromFile(Files.A)) else mask;
    if File(s) != Files.H then mask * Neg(FromFile(Files.H)) else mask
  }

  /// The blocker mask of either slider.
  function Mask(kind: Slider, s: Square): BitBoard
  {
    match kind
    case Bishop => BishopMask(s)
    case Rook => RookMask(s)
  }

  /// On an empty board a slider sees everything in its directions.
  lemma SeenEmpty(s: Square, t: Square, d: Direction)
    ensures Seen(s, t, d, EMPTY) <==> InDir(s, t, d)
  {
  }

  /// The bishop mask in coordinates: attacked on an empty board and off
  /// every border.
  lemma BishopMaskCoords(s: Square, t: Square)
    ensures t in BishopMask(s) <==>
      t in BishopAttacksSlow(s, EMPTY) && 0 < RankIndex(t) < 7 && 0 < FileIndex(t) < 7
  {
  }

  /// The rook mask in coordinates: attacked on an empty board and on a
  /// border only when s is on that same border.
  lemma RookMaskCoords(s: Square, t: Square)
    ensures t in RookMask(s) <==>
      t in RookAttacksSlow(s, EMPTY)
      && (RankIndex(t) == 0 ==> RankIndex(s) == 0) && (RankIndex(t) == 7 ==> RankIndex(s) == 7)
      && (FileIndex(t) == 0 ==> FileIndex(s) == 0) && (FileIndex(t) == 7 ==> FileIndex(s) == 7)
  {
  }

  /// Along a diagonal from s, a square is off the edge ahead exactly when it
  /// is off every border.
  lemma DiagonalInterior(s: Square, t: Square, d: Direction)
    requires IsDiagonal(d) && InDir(s, t, d)
    ensures !OnEdge(t, d) <==> 0 < RankIndex(t) < 7 && 0 < FileIndex(t) < 7
  {
  }

  /// Along a rank or file from s, a square is off the edge ahead exactly
  /// when it is on no border that s is not on.
  lemma OrthogonalInterior(s: Square, t: Square, d: Direction)
    requires IsOrthogonal(d) && InDir(s, t, d)
    ensures !OnEdge(t, d) <==>
      (RankIndex(t) == 0 ==> RankIndex(s) == 0) && (RankIndex(t) == 7 ==> RankIndex(s) == 7)
      && (FileIndex(t) == 0 ==> FileIndex(s) == 0) && (FileIndex(t) == 7 ==> FileIndex(s) == 7)
  {
  }

  /// The mask holds exactly the squares in the slider's directions that are
  /// not the last square before the edge: the squares whose occupancy can
  /// cut a ray short.
  lemma MaskContains(kind: Slider, s: Square, t: Square)
    ensures t in Mask(kind, s) <==> exists d :: Moves(kind, d) && InDir(s, t, d) && !OnEdge(t, d)
  {
    AttacksSlowSeen(kind, s, EMPTY, t);
    forall d | Moves(kind, d)
      ensures Seen(s, t, d, EMPTY) <==> InDir(s, t, d)
    {
      SeenEmpty(s, t, d);
    }
    if kind == Bishop {
      BishopMaskCoords(s, t);
      forall d | Moves(kind, d) && InDir(s, t, d)
        ensures !OnEdge(t, d) <==> 0 < RankIndex(t) < 7 && 0 < FileIndex(t) < 7
      {
        DiagonalInterior(s, t, d);
      }
    } else {
      RookMaskCoords(s, t);
      forall d | Moves(kind, d) && InDir(s, t, d)
        ensures !OnEdge(t, d) <==>
          (RankIndex(t) == 0 ==> RankIndex(s) == 0) && (RankIndex(t) == 7 ==> RankIndex(s) == 7)
          && (FileIndex(t) == 0 ==> FileIndex(s) == 0) && (FileIndex(t) == 7 ==> FileIndex(s) == 7)
      {
        OrthogonalInterior(s, t, d);
      }
    }
  }

  /// The squares of a ray except the last one before the edge.
  function InnerRay(s: Square, d: Direction): BitBoard
    decreases Dist(s, d)
  {
    OnEdgeDist(s, d);
    if OnEdge(s, d) || OnEdge(Step(s, d), d) then EMPTY
    else FromSquare(Step(s, d)) + InnerRay(Step(s, d), d)
  }

  /// The inner ray holds the squares along d that are not on the edge for d.
  lemma {:induction false} InnerRayContains(s: Square, d: Direction, t: Square)
    ensures t in InnerRay(s, d) <==> InDir(s, t, d) && !OnEdge(t, d)
    decreases Dist(s, d)
  {
    OnEdgeDist(s, d);
    if OnEdge(s, d) {
      InDirEdge(s, t, d);
    } else {
      InDirStep(s, t, d);
      if OnEdge(Step(s, d), d) {
        InDirEdge(Step(s, d), t, d);
      } else {
        InnerRayContains(Step(s, d), d, t);
      }
    }
  }

  /// The inner ray is one square shorter than the ray, or empty.
  lemma {:induction false} InnerRaySize(s: Square, d: Direction)
    ensures |InnerRay(s, d)| == if Dist(s, d) == 0 then 0 else Dist(s, d) - 1
    decreases Dist(s, d)
  {
    OnEdgeDist(s, d);
    if !OnEdge(s, d) {
      var n := Step(s, d);
      OnEdgeDist(n, d);
      if !OnEdge(n, d) {
        InnerRaySize(n, d);
        InnerRayContains(n, d, n);
        InDirIrreflexive(n, d);
      }
    }
  }

  /// The four directions of each slider, as pairs of opposite directions.
  function SliderDirs(kind: Slider): (dirs: seq<Direction>)
    ensures |dirs| == 4
    ensures forall d :: Moves(kind, d) <==> d in dirs
  {
    match kind
    case Bishop => [UpLeft, DownRight, UpRight, DownLeft]
    case Rook => [Up, Down, Left, Right]
  }

  /// The union of the inner rays in the slider's directions.
  function InnerRays(kind: Slider, s: Square): BitBoard
  {
    var dirs := SliderDirs(kind);
    InnerRay(s, dirs[0]) + InnerRay(s, dirs[1]) + InnerRay(s, dirs[2]) + InnerRay(s, dirs[3])
  }

  lemma InnerRaysContains(kind: Slider, s: Square, t: Square)
    ensures t in InnerRays(kind, s) <==> exists d :: Moves(kind, d) && InDir(s, t, d) && !OnEdge(t, d)
  {
    var dirs := SliderDirs(kind);
    InnerRayContains(s, dirs[0], t);
    InnerRayContains(s, dirs[1], t);
    InnerRayContains(s, dirs[2], t);
    InnerRayContains(s, dirs[3], t);
    if exists d :: Moves(kind, d) && InDir(s, t, d) && !OnEdge(t, d) {
      var d :| Moves(kind, d) && InDir(s, t, d) && !OnEdge(t, d);
      assert d in dirs;
    }
  }

  /// A mask is the union of the inner rays in the slider's directions.
  lemma MaskInnerRays(kind: Slider, s: Square)
    ensures Mask(kind, s) == InnerRays(kind, s)
  {
    forall t: Square
      ensures t in Mask(kind, s) <==> t in InnerRays(kind, s)
    {
      MaskContains(kind, s, t);
      InnerRaysContains(kind, s, t);
    }
  }

  /// Opposite directions together leave at most six inner squares.
  lemma InnerRayPair(s: Square, d: Direction)
    ensures |InnerRay(s, d)| + |InnerRay(s, Opposite(d))| <= 6
  {
    InnerRaySize(s, d);
    InnerRaySize(s, Opposite(d));
  }

  lemma InnerRaysSize(kind: Slider, s: Square)
    ensures |InnerRays(kind, s)| <= 12
  {
    var dirs := SliderDirs(kind);
    assert dirs[1] == Opposite(dirs[0]) && dirs[3] == Opposite(dirs[2]);
    InnerRayPair(s, dirs[0]);
    InnerRayPair(s, dirs[2]);
    var a, b, c, e := InnerRay(s, dirs[0]), InnerRay(s, dirs[1]), InnerRay(s, dirs[2]), InnerRay(s, dirs[3]);
    assert |a + b| <= |a| + |b|;
    assert |a + b + c| <= |a + b| + |c|;
    assert |a + b + c + e| <= |a + b + c| + |e|;
  }

  /// No mask holds more than 12 squares, so 2^popcnt fits the 16-bit
  /// combination counter of `Occupancies`.
  lemma MaskSize(kind: Slider, s: Square)
    ensures |Mask(kind, s)| <= 12
  {
    MaskInnerRays(kind, s);
    InnerRaysSize(kind, s);
  }

  /// `Magic::calculate_key` masks the occupancy first, which is sound
  /// because squares outside the mask never change the attacks.
  lemma MaskRelevant(kind: Slider, s: Square, occ: BitBoard)
    ensures AttacksSlow(kind, s, occ) == AttacksSlow(kind, s, occ * Mask(kind, s))
  {
    var masked := occ * Mask(kind, s);
    forall t: Square
      ensures t in AttacksSlow(kind, s, occ) <==> t in AttacksSlow(kind, s, masked)
    {
      AttacksSlowSeen(kind, s, occ, t);
      AttacksSlowSeen(kind, s, masked, t);
      forall d | Moves(kind, d)
        ensures Seen(s, t, d, occ) <==> Seen(s, t, d, masked)
      {
        forall u: Square | InDir(s, u, d) && InDir(u, t, d)
          ensures u in occ <==> u in masked
        {
          if OnEdge(u, d) {
            InDirEdge(u, t, d);
          }
          MaskContains(kind, s, u);
        }
      }
    }
  }
}
