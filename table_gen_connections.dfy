// The connection tables of src/table_gen/general.rs: for every pair of
// squares, the squares strictly between them (DIRECT_CONNECTIONS) and the
// whole line through them (AXIS_CONNECTIONS), both built from the ray-cast
// slider attacks.
module TableGenConnections {
  import opened Squares
  import opened BitBoards
  import opened Directions
  import opened Geometry
  import opened TableGenSliders

  /// t lies strictly between a and b on a rank, file or diagonal.
  predicate Between(a: Square, b: Square, t: Square)
  {
    exists d :: InDir(a, t, d) && InDir(t, b, d)
  }

  /// t lies on the line through a and b (both included) when they are
  /// aligned; when a == b, on any rank, file or diagonal through a.
  predicate OnAxis(a: Square, b: Square, t: Square)
  {
    exists d :: (a == b || InDir(a, b, d)) && (t == a || InDir(a, t, d) || InDir(t, a, d))
  }

  /// The squares strictly between a and b.
  function BetweenSet(a: Square, b: Square): BitBoard
  {
    set t: Square | Between(a, b, t)
  }

  /// The squares on the line through a and b.
  function AxisSet(a: Square, b: Square): BitBoard
  {
    set t: Square | OnAxis(a, b, t)
  }

  /// The only blockers of a connection are its two end squares.
  function Ends(a: Square, b: Square): (occ: BitBoard)
    ensures forall t: Square :: t in occ <==> t == a || t == b
  {
    FromSquare(a) + FromSquare(b)
  }

  /// `generate_direct_connections`, one entry: with only a and b occupied,
  /// the bishop attacks from both ends when b is on a diagonal from a,
  /// otherwise the rook attacks from both ends when b is on a rank or file
  /// from a, otherwise nothing.
  function DirectConnection(a: Square, b: Square): BitBoard
  {
    var occ := Ends(a, b);
    var bishopAttacks := AttacksSlow(Bishop, a, occ);
    var rookAttacks := AttacksSlow(Rook, a, occ);
    if Overlaps(bishopAttacks, FromSquare(b)) then bishopAttacks * AttacksSlow(Bishop, b, occ)
    else if Overlaps(rookAttacks, FromSquare(b)) then rookAttacks * AttacksSlow(Rook, b, occ)
    else EMPTY
  }

  /// `generate_axis_connections`, one entry: the empty-board attacks of each
  /// slider from a, with a added, intersected with the same from b, for
  /// each slider that reaches b.
  function AxisConnection(a: Square, b: Square): BitBoard
  {
    var bishopAttacks := AttacksSlow(Bishop, a, EMPTY) + FromSquare(a);
    var rookAttacks := AttacksSlow(Rook, a, EMPTY) + FromSquare(a);
    var viaBishop :=
      if Overlaps(bishopAttacks, FromSquare(b)) then bishopAttacks * (AttacksSlow(Bishop, b, EMPTY) + FromSquare(b))
      else EMPTY;
    var viaRook :=
      if Overlaps(rookAttacks, FromSquare(b)) then rookAttacks * (AttacksSlow(Rook, b, EMPTY) + FromSquare(b))
      else EMPTY;
    viaBishop + viaRook
  }

  /// Every direction belongs to one of the two sliders.
  lemma SliderOf(d: Direction) returns (kind: Slider)
    ensures Moves(kind, d)
    ensures kind == Bishop <==> IsDiagonal(d)
  {
    kind := if IsDiagonal(d) then Bishop else Rook;
  }

  /// With only the two ends occupied, a slider on a reaches b exactly when
  /// b lies along one of its directions.
  lemma ReachesEnd(kind: Slider, a: Square, b: Square)
    ensures b in AttacksSlow(kind, a, Ends(a, b)) <==> exists d :: Moves(kind, d) && InDir(a, b, d)
  {
    AttacksSlowSeen(kind, a, Ends(a, b), b);
    if exists d :: Moves(kind, d) && InDir(a, b, d) {
      var d :| Moves(kind, d) && InDir(a, b, d);
      forall u: Square | InDir(a, u, d) && InDir(u, b, d)
        ensures u !in Ends(a, b)
      {
        InDirIrreflexive(a, d);
        InDirIrreflexive(b, d);
      }
      assert Seen(a, b, d, Ends(a, b));
    }
  }

  /// With the two ends occupied and b along d from a, a square seen from
  /// both ends along the slider's directions lies strictly between them.
  lemma SeenFromBoth(kind: Slider, a: Square, b: Square, t: Square, d: Direction, d1: Direction, d2: Direction)
    requires Moves(kind, d) && InDir(a, b, d)
    requires Moves(kind, d1) && Seen(a, t, d1, Ends(a, b))
    requires Moves(kind, d2) && Seen(b, t, d2, Ends(a, b))
    ensures InDir(a, t, d) && InDir(t, b, d)
  {
    InDirOpposite(a, b, d);
    Collinear(a, b, t, d, d1, d2);
    InDirIrreflexive(b, d2);
    if d1 == d {
      // b is not passed on the way from a to t, and t is not b itself
      InDirTrichotomy(a, t, b, d);
      assert !(InDir(a, b, d) && InDir(b, t, d));
    } else {
      // t is behind a, so from b the square a blocks the way to t
      InDirOpposite(a, t, d1);
      assert false;
    }
  }

  /// With the two ends occupied, a square strictly between them is seen
  /// from both ends.
  lemma BetweenSeenFromBoth(a: Square, b: Square, t: Square, d: Direction)
    requires InDir(a, t, d) && InDir(t, b, d)
    ensures Seen(a, t, d, Ends(a, b)) && Seen(b, t, Opposite(d), Ends(a, b))
  {
    var occ := Ends(a, b);
    forall u: Square | InDir(a, u, d) && InDir(u, t, d)
      ensures u !in occ
    {
      InDirIrreflexive(a, d);
      if u == b {
        InDirTransitive(b, t, b, d);
        InDirIrreflexive(b, d);
      }
    }
    InDirOpposite(t, b, d);
    forall u: Square | InDir(b, u, Opposite(d)) && InDir(u, t, Opposite(d))
      ensures u !in occ
    {
      InDirIrreflexive(b, Opposite(d));
      if u == a {
        InDirOpposite(a, t, d);
        InDirTransitive(a, t, a, Opposite(d));
        InDirIrreflexive(a, Opposite(d));
      }
    }
  }

  /// With the two ends occupied and b along d from a, the squares seen from
  /// both ends along the slider's directions are those strictly between them.
  lemma BetweenSeen(kind: Slider, a: Square, b: Square, t: Square, d: Direction)
    requires Moves(kind, d) && InDir(a, b, d)
    ensures ((exists d1 :: Moves(kind, d1) && Seen(a, t, d1, Ends(a, b)))
        && (exists d2 :: Moves(kind, d2) && Seen(b, t, d2, Ends(a, b))))
      <==> InDir(a, t, d) && InDir(t, b, d)
  {
    if (exists d1 :: Moves(kind, d1) && Seen(a, t, d1, Ends(a, b)))
      && (exists d2 :: Moves(kind, d2) && Seen(b, t, d2, Ends(a, b)))
    {
      var d1 :| Moves(kind, d1) && Seen(a, t, d1, Ends(a, b));
      var d2 :| Moves(kind, d2) && Seen(b, t, d2, Ends(a, b));
      SeenFromBoth(kind, a, b, t, d, d1, d2);
    }
    if InDir(a, t, d) && InDir(t, b, d) {
      BetweenSeenFromBoth(a, b, t, d);
      assert Moves(kind, Opposite(d));
    }
  }

  /// With the two ends occupied and b along d from a, the squares both ends
  /// attack are those strictly between them.
  lemma BetweenEnds(kind: Slider, a: Square, b: Square, t: Square, d: Direction)
    requires Moves(kind, d) && InDir(a, b, d)
    ensures t in AttacksSlow(kind, a, Ends(a, b)) * AttacksSlow(kind, b, Ends(a, b))
      <==> InDir(a, t, d) && InDir(t, b, d)
  {
    AttacksSlowSeen(kind, a, Ends(a, b), t);
    AttacksSlowSeen(kind, b, Ends(a, b), t);
    BetweenSeen(kind, a, b, t, d);
  }

  /// `DIRECT_CONNECTIONS[a][b]` holds exactly the squares strictly between a
  /// and b on a common rank, file or diagonal; it is empty for squares not
  /// on a common line and for a == b.
  lemma DirectConnectionSpec(a: Square, b: Square, t: Square)
    ensures t in DirectConnection(a, b) <==> Between(a, b, t)
  {
    var occ := Ends(a, b);
    ReachesEnd(Bishop, a, b);
    ReachesEnd(Rook, a, b);
    OverlapsSquare(AttacksSlow(Bishop, a, occ), b);
    OverlapsSquare(AttacksSlow(Rook, a, occ), b);
    if Between(a, b, t) {
      var d :| InDir(a, t, d) && InDir(t, b, d);
      InDirTransitive(a, t, b, d);
      var kind := SliderOf(d);
      BetweenEnds(kind, a, b, t, d);
      if kind == Rook {
        forall d' | Moves(Bishop, d') && InDir(a, b, d')
          ensures false
        {
          InDirUnique(a, b, d, d');
        }
      }
    } else if exists d :: InDir(a, b, d) {
      var d :| InDir(a, b, d);
      var kind := SliderOf(d);
      BetweenEnds(kind, a, b, t, d);
      if kind == Rook {
        forall d' | Moves(Bishop, d') && InDir(a, b, d')
          ensures false
        {
          InDirUnique(a, b, d, d');
        }
      }
    }
  }

  /// t is a itself or lies along one of the slider's directions from a.
  predicate Reach(kind: Slider, a: Square, t: Square)
  {
    t == a || exists d :: Moves(kind, d) && InDir(a, t, d)
  }

  /// On an empty board, a slider's attacks from a plus a itself.
  lemma ReachOrSelf(kind: Slider, a: Square, t: Square)
    ensures t in AttacksSlow(kind, a, EMPTY) + FromSquare(a) <==> Reach(kind, a, t)
  {
    AttacksSlowSeen(kind, a, EMPTY, t);
    forall d
      ensures Seen(a, t, d, EMPTY) <==> InDir(a, t, d)
    {
      SeenEmpty(a, t, d);
    }
  }

  /// The axis entry in terms of lines: for the bishop, and then the rook,
  /// whether b is reached from a and t from both.
  predicate AxisReach(a: Square, b: Square, t: Square)
  {
    (Reach(Bishop, a, b) && Reach(Bishop, a, t) && Reach(Bishop, b, t))
    || (Reach(Rook, a, b) && Reach(Rook, a, t) && Reach(Rook, b, t))
  }

  lemma AxisMembership(a: Square, b: Square, t: Square)
    ensures t in AxisConnection(a, b) <==> AxisReach(a, b, t)
  {
    ReachOrSelf(Bishop, a, b);
    ReachOrSelf(Rook, a, b);
    OverlapsSquare(AttacksSlow(Bishop, a, EMPTY) + FromSquare(a), b);
    OverlapsSquare(AttacksSlow(Rook, a, EMPTY) + FromSquare(a), b);
    ReachOrSelf(Bishop, a, t);
    ReachOrSelf(Rook, a, t);
    ReachOrSelf(Bishop, b, t);
    ReachOrSelf(Rook, b, t);
  }

  /// With b along d from a (a slider's direction), the lines of that slider
  /// through a and through b meet exactly on the line through both.
  lemma LineThrough(kind: Slider, a: Square, b: Square, t: Square, d: Direction)
    requires Moves(kind, d) && InDir(a, b, d)
    ensures Reach(kind, a, t) && Reach(kind, b, t) <==> t == a || InDir(a, t, d) || InDir(t, a, d)
  {
    InDirOpposite(a, b, d);
    assert Moves(kind, Opposite(d));
    if Reach(kind, a, t) && Reach(kind, b, t) && t != a && t != b {
      var d1 :| Moves(kind, d1) && InDir(a, t, d1);
      var d2 :| Moves(kind, d2) && InDir(b, t, d2);
      Collinear(a, b, t, d, d1, d2);
      InDirOpposite(t, a, d);
    }
    if InDir(a, t, d) && t != b {
      InDirTrichotomy(a, t, b, d);
      if InDir(t, b, d) {
        InDirOpposite(t, b, d);
      }
      assert InDir(b, t, d) || InDir(b, t, Opposite(d));
    }
    if InDir(t, a, d) {
      InDirTransitive(t, a, b, d);
      InDirOpposite(t, b, d);
      InDirOpposite(t, a, d);
      assert InDir(a, t, Opposite(d));
      assert InDir(b, t, Opposite(d));
    }
  }

  /// For a == b both sliders reach b, so the axis entry is every line
  /// through a.
  lemma AxisReachSelf(a: Square, t: Square)
    ensures AxisReach(a, a, t) <==> OnAxis(a, a, t)
  {
    if t == a {
      InDirIrreflexive(a, Up);
      assert OnAxis(a, a, t);
      assert Reach(Bishop, a, a) && Reach(Rook, a, a);
    } else {
      if AxisReach(a, a, t) {
        var kind := if Reach(Bishop, a, t) then Bishop else Rook;
        var d :| Moves(kind, d) && InDir(a, t, d);
        assert (a == a || InDir(a, a, d)) && (t == a || InDir(a, t, d) || InDir(t, a, d));
      }
      if OnAxis(a, a, t) {
        var d :| InDir(a, t, d) || InDir(t, a, d);
        InDirOpposite(t, a, d);
        var d' := if InDir(a, t, d) then d else Opposite(d);
        var kind := SliderOf(d');
        assert Moves(kind, d') && InDir(a, t, d');
        assert Reach(kind, a, t) && Reach(kind, a, a);
      }
    }
  }

  /// The line description of the axis entry is the line through a and b.
  lemma AxisReachSpec(a: Square, b: Square, t: Square)
    ensures AxisReach(a, b, t) <==> OnAxis(a, b, t)
  {
    if a == b {
      AxisReachSelf(a, t);
    } else if exists d :: InDir(a, b, d) {
      var d :| InDir(a, b, d);
      var kind := SliderOf(d);
      LineThrough(kind, a, b, t, d);
      forall d' | InDir(a, b, d')
        ensures d' == d
      {
        InDirUnique(a, b, d, d');
      }
      assert Reach(kind, a, b);
      var other := if kind == Bishop then Rook else Bishop;
      assert !Reach(other, a, b);
    }
  }

  /// `AXIS_CONNECTIONS[a][b]` holds exactly the line through a and b, both
  /// included, when they share a rank, file or diagonal, and is empty
  /// otherwise; for a == b it is every line through a.
  lemma AxisConnectionSpec(a: Square, b: Square, t: Square)
    ensures t in AxisConnection(a, b) <==> OnAxis(a, b, t)
  {
    AxisMembership(a, b, t);
    AxisReachSpec(a, b, t);
  }

  /// A direct connection entry is the set of squares strictly between.
  lemma DirectIsBetween(a: Square, b: Square)
    ensures DirectConnection(a, b) == BetweenSet(a, b)
  {
    forall t: Square
      ensures t in DirectConnection(a, b) <==> t in BetweenSet(a, b)
    {
      DirectConnectionSpec(a, b, t);
    }
  }

  /// An axis connection entry is the set of squares on the line.
  lemma AxisIsLine(a: Square, b: Square)
    ensures AxisConnection(a, b) == AxisSet(a, b)
  {
    forall t: Square
      ensures t in AxisConnection(a, b) <==> t in AxisSet(a, b)
    {
      AxisConnectionSpec(a, b, t);
    }
  }

  /// The line through a and b is the line through b and a.
  lemma OnAxisSymmetric(a: Square, b: Square, t: Square)
    ensures OnAxis(a, b, t) <==> OnAxis(b, a, t)
  {
    if OnAxis(a, b, t) && a != b {
      var d :| InDir(a, b, d) && (t == a || InDir(a, t, d) || InDir(t, a, d));
      SymmetricLine(a, b, t, d);
    }
    if OnAxis(b, a, t) && a != b {
      var d :| InDir(b, a, d) && (t == b || InDir(b, t, d) || InDir(t, b, d));
      SymmetricLine(b, a, t, d);
    }
  }

  /// The axis table is symmetric.
  lemma AxisConnectionSymmetric(a: Square, b: Square)
    ensures AxisConnection(a, b) == AxisConnection(b, a)
  {
    AxisIsLine(a, b);
    AxisIsLine(b, a);
    forall t: Square
      ensures t in AxisSet(a, b) <==> t in AxisSet(b, a)
    {
      OnAxisSymmetric(a, b, t);
    }
  }

  /// A square on the line through a and b (seen from a) is on it seen from b.
  lemma SymmetricLine(a: Square, b: Square, t: Square, d: Direction)
    requires InDir(a, b, d)
    requires t == a || InDir(a, t, d) || InDir(t, a, d)
    ensures OnAxis(b, a, t)
  {
    var o := Opposite(d);
    InDirOpposite(a, b, d);
    if t == a {
      assert InDir(b, a, o);
    } else if InDir(t, a, d) {
      InDirTransitive(t, a, b, d);
      InDirOpposite(t, b, d);
      assert InDir(b, t, o);
    } else if t != b {
      InDirTrichotomy(a, t, b, d);
      if InDir(t, b, d) {
        InDirOpposite(t, b, d);
        assert InDir(b, t, o);
      } else {
        InDirOpposite(b, t, d);
        assert InDir(t, b, o);
      }
    }
    assert (b == a || InDir(b, a, o)) && (t == b || InDir(b, t, o) || InDir(t, b, o));
  }

  /// A direct connection lies inside the axis connection of the same pair.
  lemma DirectWithinAxis(a: Square, b: Square)
    ensures DirectConnection(a, b) <= AxisConnection(a, b)
  {
    forall t: Square | t in DirectConnection(a, b)
      ensures t in AxisConnection(a, b)
    {
      DirectConnectionSpec(a, b, t);
      AxisConnectionSpec(a, b, t);
      var d :| InDir(a, t, d) && InDir(t, b, d);
      InDirTransitive(a, t, b, d);
      assert (a == b || InDir(a, b, d)) && InDir(a, t, d);
    }
  }

  /// The body of `generate_direct_connections` for one pair of squares.
  method DirectEntry(a: Square, b: Square) returns (connection: BitBoard)
    ensures connection == BetweenSet(a, b)
  {
    var occupancy := FromSquare(a) + FromSquare(b);
    var bishopAttacks := AttacksSlow(Bishop, a, occupancy);
    var rookAttacks := AttacksSlow(Rook, a, occupancy);
    if Overlaps(bishopAttacks, FromSquare(b)) {
      connection := bishopAttacks * AttacksSlow(Bishop, b, occupancy);
    } else if Overlaps(rookAttacks, FromSquare(b)) {
      connection := rookAttacks * AttacksSlow(Rook, b, occupancy);
    } else {
      connection := EMPTY;
    }
    assert connection == DirectConnection(a, b);
    DirectIsBetween(a, b);
  }

  /// `generate_direct_connections`: the 64 x 64 table, one entry per pair
  /// of squares, each the squares strictly between the pair.
  method GenerateDirectConnections() returns (table: array2<BitBoard>)
    ensures fresh(table)
    ensures table.Length0 == 64 && table.Length1 == 64
    ensures forall a: Square, b: Square :: table[a, b] == BetweenSet(a, b)
  {
    table := new BitBoard[64, 64]((_, _) => EMPTY);
    for a := 0 to 64
      invariant forall a': Square, b: Square :: a' < a ==> table[a', b] == BetweenSet(a', b)
    {
      for b := 0 to 64
        invariant forall a': Square, b': Square :: a' < a ==> table[a', b'] == BetweenSet(a', b')
        invariant forall b': Square :: b' < b ==> table[a, b'] == BetweenSet(a, b')
      {
        table[a, b] := DirectEntry(a, b);
      }
    }
  }

  /// The body of `generate_axis_connections` for one pair of squares: the
  /// bishop line and then the rook line are OR-ed in when they reach b.
  method AxisEntry(a: Square, b: Square) returns (connection: BitBoard)
    ensures connection == AxisSet(a, b)
  {
    var bishopAttacks := AttacksSlow(Bishop, a, EMPTY) + FromSquare(a);
    var rookAttacks := AttacksSlow(Rook, a, EMPTY) + FromSquare(a);
    connection := EMPTY;
    if Overlaps(bishopAttacks, FromSquare(b)) {
      connection := connection + bishopAttacks * (AttacksSlow(Bishop, b, EMPTY) + FromSquare(b));
    }
    if Overlaps(rookAttacks, FromSquare(b)) {
      connection := connection + rookAttacks * (AttacksSlow(Rook, b, EMPTY) + FromSquare(b));
    }
    assert connection == AxisConnection(a, b);
    AxisIsLine(a, b);
  }

  /// `generate_axis_connections`: the 64 x 64 table, one entry per pair of
  /// squares, each the line through the pair.
  method GenerateAxisConnections() returns (table: array2<BitBoard>)
    ensures fresh(table)
    ensures table.Length0 == 64 && table.Length1 == 64
    ensures forall a: Square, b: Square :: table[a, b] == AxisSet(a, b)
  {
    table := new BitBoard[64, 64]((_, _) => EMPTY);
    for a := 0 to 64
      invariant forall a': Square, b: Square :: a' < a ==> table[a', b] == AxisSet(a', b)
    {
      for b := 0 to 64
        invariant forall a': Square, b': Square :: a' < a ==> table[a', b'] == AxisSet(a', b')
        invariant forall b': Square :: b' < b ==> table[a, b'] == AxisSet(a, b')
      {
        table[a, b] := AxisEntry(a, b);
      }
    }
  }
}
