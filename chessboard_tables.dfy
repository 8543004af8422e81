// The board's attack lookups (src/chessboard/tables.rs): reads of the
// generated tables, and slider attacks either through the magic tables or
// by casting rays, depending on how the crate is built.
module ChessboardTables {
  import opened Squares
  import opened BitBoards
  import opened Colors
  import Directions
  import opened Geometry
  import opened TableGenRays
  import opened TableGenSliders
  import opened Magics
  import TableGenLeapers
  import TableGenConnections
  import MaskGenSliders

  // The generated tables (`PAWN_ATTACKS`, `KNIGHT_ATTACKS`, ...): the
  // values the table generators compute, whose methods are proved to fill
  // exactly these entries.

  function PawnAttacksTable(): (table: seq<seq<BitBoard>>)
    ensures |table| == 2 && forall c :: 0 <= c < 2 ==> |table[c]| == 64
  {
    seq(2, c requires 0 <= c < 2 => seq(64, s requires 0 <= s < 64 => TableGenLeapers.PawnTargets(COLORS[c], s)))
  }

  function KnightAttacksTable(): (table: seq<BitBoard>)
    ensures |table| == 64
  {
    seq(64, s requires 0 <= s < 64 => TableGenLeapers.KnightTargets(s))
  }

  function KingAttacksTable(): (table: seq<BitBoard>)
    ensures |table| == 64
  {
    seq(64, s requires 0 <= s < 64 => TableGenLeapers.KingTargets(s))
  }

  function DirectConnectionsTable(): (table: seq<seq<BitBoard>>)
    ensures |table| == 64 && forall a :: 0 <= a < 64 ==> |table[a]| == 64
  {
    seq(64, a requires 0 <= a < 64 => seq(64, b requires 0 <= b < 64 => TableGenConnections.BetweenSet(a, b)))
  }

  function AxisConnectionsTable(): (table: seq<seq<BitBoard>>)
    ensures |table| == 64 && forall a :: 0 <= a < 64 ==> |table[a]| == 64
  {
    seq(64, a requires 0 <= a < 64 => seq(64, b requires 0 <= b < 64 => TableGenConnections.AxisSet(a, b)))
  }

  function RaysTable(): (rays: MaskGenSliders.RayTable)
    ensures MaskGenSliders.IsRayTable(rays)
  {
    seq(64, s requires 0 <= s < 64 => seq(8, i requires 0 <= i < 8 => Ray(s, Directions.DIRS[i])))
  }

  /// `get_pawn_attacks`: indexed by color, then square; the two squares
  /// diagonally ahead of the pawn.
  function GetPawnAttacks(s: Square, c: Color): (r: BitBoard)
    ensures forall t: Square :: t in r <==>
      (TableGenLeapers.Offset(s, t, TableGenLeapers.PawnRankStep(c), -1)
       || TableGenLeapers.Offset(s, t, TableGenLeapers.PawnRankStep(c), 1))
  {
    PawnAttacksTable()[Colors.Index(c)][s]
  }

  /// `get_knight_attacks`: the squares a knight's jump away.
  function GetKnightAttacks(s: Square): (r: BitBoard)
    ensures forall t: Square :: t in r <==> TableGenLeapers.KnightJump(s, t)
  {
    KnightAttacksTable()[s]
  }

  /// `get_king_attacks`: the neighbouring squares.
  function GetKingAttacks(s: Square): (r: BitBoard)
    ensures forall t: Square :: t in r <==> TableGenLeapers.KingStep(s, t)
  {
    KingAttacksTable()[s]
  }

  /// `get_direct_connection`: the squares strictly between the two.
  function GetDirectConnection(a: Square, b: Square): (r: BitBoard)
    ensures forall t: Square :: t in r <==> TableGenConnections.Between(a, b, t)
  {
    DirectConnectionsTable()[a][b]
  }

  /// `get_connection_axis`: the line through the two.
  function GetConnectionAxis(a: Square, b: Square): (r: BitBoard)
    ensures forall t: Square :: t in r <==> TableGenConnections.OnAxis(a, b, t)
  {
    AxisConnectionsTable()[a][b]
  }

  /// The generated magic tables: per square a magic for each slider, and
  /// the shared attack tables they index.
  datatype MagicData = MagicData(
    bishopMagics: seq<Magic>, bishopAttacks: seq<BitBoard>,
    rookMagics: seq<Magic>, rookAttacks: seq<BitBoard>)

  /// One slider's table holds, at the key of every occupancy under each
  /// square's magic, the ray-cast attacks: what the magic generator and
  /// the attack generator produce together.
  ghost predicate LoadedFor(kind: Slider, magics: seq<Magic>, attacks: seq<BitBoard>)
  {
    |magics| == 64
    && (forall s: Square :: Magics.WellFormed(magics[s]))
    && forall s: Square, occ :: Key(magics[s], occ) < |attacks| && attacks[Key(magics[s], occ)] == AttacksSlow(kind, s, occ)
  }

  ghost predicate Loaded(data: MagicData)
  {
    LoadedFor(Bishop, data.bishopMagics, data.bishopAttacks)
    && LoadedFor(Rook, data.rookMagics, data.rookAttacks)
  }

  /// The `magic-table` feature: on, with the generated magic tables, or
  /// off, casting rays over the generated ray table (`RAYS`).
  datatype Build = MagicTable(data: MagicData) | RayCast(rays: MaskGenSliders.RayTable)

  /// The tables hold what the generators produce.
  ghost predicate Ready(build: Build)
  {
    (build.MagicTable? ==> Loaded(build.data))
    && (build.RayCast? ==> MaskGenSliders.IsRayTable(build.rays))
  }

  /// Without the feature the board casts over `RAYS`, the generated table.
  lemma RayCastReady()
    ensures Ready(RayCast(RaysTable()))
  {
  }

  /// The entry of a slider's table at the key of its magic for s.
  function MagicLookup(kind: Slider, magics: seq<Magic>, attacks: seq<BitBoard>, s: Square, occ: BitBoard): (r: BitBoard)
    requires LoadedFor(kind, magics, attacks)
    ensures r == AttacksSlow(kind, s, occ)
  {
    attacks[Key(magics[s], occ)]
  }

  /// `get_bishop_attacks`: on either build, the squares a bishop on s sees.
  function GetBishopAttacks(build: Build, s: Square, occ: BitBoard): (r: BitBoard)
    requires Ready(build)
    ensures r == AttacksSlow(Bishop, s, occ)
  {
    match build
    case MagicTable(data) => MagicLookup(Bishop, data.bishopMagics, data.bishopAttacks, s, occ)
    case RayCast(rays) =>
      MaskGenSliders.SlowAttacksAgree(rays, s, occ);
      MaskGenSliders.BishopAttacksSlow(rays, s, occ)
  }

  /// `get_rook_attacks`: on either build, the squares a rook on s sees.
  function GetRookAttacks(build: Build, s: Square, occ: BitBoard): (r: BitBoard)
    requires Ready(build)
    ensures r == AttacksSlow(Rook, s, occ)
  {
    match build
    case MagicTable(data) => MagicLookup(Rook, data.rookMagics, data.rookAttacks, s, occ)
    case RayCast(rays) =>
      MaskGenSliders.SlowAttacksAgree(rays, s, occ);
      MaskGenSliders.RookAttacksSlow(rays, s, occ)
  }

  /// The squares a slider on s would see beyond a friendly piece that is
  /// the first piece on one of its lines: b is friendly and seen from s
  /// along d, and t is seen from b along the same d.
  ghost predicate RevealedAt(kind: Slider, s: Square, occ: BitBoard, friendly: BitBoard, t: Square)
  {
    exists d, b: Square :: Moves(kind, d) && b in friendly && Seen(s, b, d, occ) && Seen(b, t, d, occ)
  }

  ghost function Revealed(kind: Slider, s: Square, occ: BitBoard, friendly: BitBoard): BitBoard
  {
    set t: Square | RevealedAt(kind, s, occ, friendly, t)
  }

  /// Removing pieces never hides a square: attacks shrink as the
  /// occupancy grows.
  lemma AttacksAntitone(kind: Slider, s: Square, more: BitBoard, less: BitBoard)
    requires less <= more
    ensures AttacksSlow(kind, s, more) <= AttacksSlow(kind, s, less)
  {
    forall t | t in AttacksSlow(kind, s, more)
      ensures t in AttacksSlow(kind, s, less)
    {
      AttacksSlowSeen(kind, s, more, t);
      AttacksSlowSeen(kind, s, less, t);
    }
  }

  /// A square first seen on the line d is seen only along d.
  lemma SeenAlong(kind: Slider, s: Square, occ: BitBoard, u: Square, d: Directions.Direction)
    requires u in AttacksSlow(kind, s, occ) && InDir(s, u, d)
    ensures Seen(s, u, d, occ)
  {
    AttacksSlowSeen(kind, s, occ, u);
    var d2 :| Moves(kind, d2) && Seen(s, u, d2, occ);
    InDirUnique(s, u, d, d2);
  }

  /// A square the lifted attacks add lies behind a seen friendly piece.
  lemma RevealedBehind(kind: Slider, s: Square, occ: BitBoard, friendly: BitBoard, t: Square)
    requires friendly <= occ
    requires t in AttacksSlow(kind, s, occ - friendly * AttacksSlow(kind, s, occ))
    requires t !in AttacksSlow(kind, s, occ)
    ensures t in Revealed(kind, s, occ, friendly)
  {
    var seen := AttacksSlow(kind, s, occ);
    var lifted := occ - friendly * seen;
    AttacksSlowSeen(kind, s, lifted, t);
    var d :| Moves(kind, d) && Seen(s, t, d, lifted);
    AttacksSlowSeen(kind, s, occ, t);
    assert !Seen(s, t, d, occ);
    var u :| InDir(s, u, d) && InDir(u, t, d) && u in occ;
    assert u in friendly * seen;
    SeenAlong(kind, s, occ, u, d);
    forall w: Square | InDir(u, w, d) && InDir(w, t, d)
      ensures w !in occ
    {
      InDirTransitive(s, u, w, d);
      if w in occ {
        assert w in seen;
        SeenAlong(kind, s, occ, w, d);
        assert false;
      }
    }
    assert Seen(u, t, d, occ);
  }

  /// A square behind a seen friendly piece is hidden now and seen once the
  /// piece is lifted.
  lemma BehindRevealed(kind: Slider, s: Square, occ: BitBoard, friendly: BitBoard, t: Square, d: Directions.Direction, b: Square)
    requires friendly <= occ
    requires Moves(kind, d) && b in friendly && Seen(s, b, d, occ) && Seen(b, t, d, occ)
    ensures t in AttacksSlow(kind, s, occ - friendly * AttacksSlow(kind, s, occ))
    ensures t !in AttacksSlow(kind, s, occ)
  {
    var seen := AttacksSlow(kind, s, occ);
    var lifted := occ - friendly * seen;
    AttacksSlowSeen(kind, s, occ, b);
    assert b !in lifted;
    InDirTransitive(s, b, t, d);
    if t in seen {
      SeenAlong(kind, s, occ, t, d);
      assert false;
    }
    forall w: Square | InDir(s, w, d) && InDir(w, t, d)
      ensures w !in lifted
    {
      InDirTrichotomy(s, w, b, d);
    }
    assert Seen(s, t, d, lifted);
    AttacksSlowSeen(kind, s, lifted, t);
  }

  /// The ghost lookup of a slider over its ray-cast attacks: the seen
  /// squares XOR the squares seen once the seen friendly pieces are lifted.
  /// With friendly pieces among the occupied squares, it is exactly the
  /// squares revealed behind them, and none of the seen squares.
  lemma GhostSpec(kind: Slider, s: Square, occ: BitBoard, friendly: BitBoard)
    ensures friendly <= occ ==>
      Xor(AttacksSlow(kind, s, occ), AttacksSlow(kind, s, Xor(occ, friendly * AttacksSlow(kind, s, occ))))
      == Revealed(kind, s, occ, friendly)
    ensures friendly <= occ ==>
      Xor(AttacksSlow(kind, s, occ), AttacksSlow(kind, s, Xor(occ, friendly * AttacksSlow(kind, s, occ))))
      * AttacksSlow(kind, s, occ) == EMPTY
  {
    if friendly <= occ {
      var seen := AttacksSlow(kind, s, occ);
      var lifted := occ - friendly * seen;
      assert Xor(occ, friendly * seen) == lifted;
      AttacksAntitone(kind, s, occ, lifted);
      var shadow := Xor(seen, AttacksSlow(kind, s, lifted));
      forall t: Square
        ensures t in shadow <==> t in Revealed(kind, s, occ, friendly)
      {
        if t in shadow {
          RevealedBehind(kind, s, occ, friendly, t);
        }
        if t in Revealed(kind, s, occ, friendly) {
          var d, b :| Moves(kind, d) && b in friendly && Seen(s, b, d, occ) && Seen(b, t, d, occ);
          BehindRevealed(kind, s, occ, friendly, t, d, b);
        }
      }
    }
  }

  /// `get_ghost_bishop`: the bishop's seen squares XOR those it sees with
  /// its seen friendly pieces lifted. With friendly pieces among the
  /// occupied squares, the squares revealed behind the first friendly piece
  /// on each diagonal, none of them seen directly.
  function GetGhostBishop(build: Build, s: Square, occ: BitBoard, friendly: BitBoard): (r: BitBoard)
    requires Ready(build)
    ensures friendly <= occ ==> r == Revealed(Bishop, s, occ, friendly)
    ensures friendly <= occ ==> r * GetBishopAttacks(build, s, occ) == EMPTY
  {
    var seen := GetBishopAttacks(build, s, occ);
    var seenFriends := friendly * seen;
    GhostSpec(Bishop, s, occ, friendly);
    Xor(seen, GetBishopAttacks(build, s, Xor(occ, seenFriends)))
  }

  /// `get_ghost_rook`: the same along ranks and files.
  function GetGhostRook(build: Build, s: Square, occ: BitBoard, friendly: BitBoard): (r: BitBoard)
    requires Ready(build)
    ensures friendly <= occ ==> r == Revealed(Rook, s, occ, friendly)
    ensures friendly <= occ ==> r * GetRookAttacks(build, s, occ) == EMPTY
  {
    var seen := GetRookAttacks(build, s, occ);
    var seenFriends := friendly * seen;
    GhostSpec(Rook, s, occ, friendly);
    Xor(seen, GetRookAttacks(build, s, Xor(occ, seenFriends)))
  }
}
