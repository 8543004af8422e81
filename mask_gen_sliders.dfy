// Slider attacks cast along a ray table the caller passes in
// (src/mask_gen/sliders.rs): the fallback the board uses when it is built
// without magic tables.
module MaskGenSliders {
  import opened Squares
  import opened BitBoards
  import opened Directions
  import opened Geometry
  import opened TableGenRays
  import TableGenSliders

  /// `&[[BitBoard; 8]; 64]`: a board per square and direction.
  type RayTable = rays: seq<seq<BitBoard>> | |rays| == 64 && forall i :: 0 <= i < 64 ==> |rays[i]| == 8
    witness seq(64, _ => seq(8, _ => EMPTY))

  /// The table holds the ray of every square and direction, as
  /// `generate_rays` builds it.
  predicate IsRayTable(rays: RayTable)
  {
    forall s: Square, i :: 0 <= i < 8 ==> rays[s][i] == Ray(s, DIRS[i])
  }

  /// `ray_attacks` over a given table: the table's ray from s along d; when
  /// it holds occupied squares, the entry of the first of them (the lowest
  /// index along the directions whose indices increase, the highest along
  /// the others) is XOR-ed away.
  function RayAttacks(rays: RayTable, s: Square, d: Direction, occ: BitBoard): BitBoard
  {
    var attacks := rays[s][Index(d)];
    var blockers := attacks * occ;
    if IsEmpty(blockers) then attacks
    else
      var blocker := if Forward(d) then ScanForward(blockers).value else ScanReverse(blockers).value;
      Xor(attacks, rays[blocker][Index(d)])
  }

  /// `get_bishop_attacks_slow`: the union of the four diagonal rays.
  function BishopAttacksSlow(rays: RayTable, s: Square, occ: BitBoard): BitBoard
  {
    RayAttacks(rays, s, UpLeft, occ) + RayAttacks(rays, s, UpRight, occ)
    + RayAttacks(rays, s, DownLeft, occ) + RayAttacks(rays, s, DownRight, occ)
  }

  /// `get_rook_attacks_slow`: the union of the four orthogonal rays.
  function RookAttacksSlow(rays: RayTable, s: Square, occ: BitBoard): BitBoard
  {
    RayAttacks(rays, s, Up, occ) + RayAttacks(rays, s, Down, occ)
    + RayAttacks(rays, s, Left, occ) + RayAttacks(rays, s, Right, occ)
  }

  /// Given the ray table, a ray cast here is the one the table generator
  /// casts over its own rays.
  lemma RayAttacksAgree(rays: RayTable, s: Square, d: Direction, occ: BitBoard)
    requires IsRayTable(rays)
    ensures RayAttacks(rays, s, d, occ) == TableGenSliders.RayAttacks(s, d, occ)
  {
    RayEntry(rays, s, d);
    var blockers := Ray(s, d) * occ;
    if !IsEmpty(blockers) {
      var blocker := if Forward(d) then ScanForward(blockers).value else ScanReverse(blockers).value;
      RayEntry(rays, blocker, d);
    }
  }

  /// The table's entry for a square and direction is that ray.
  lemma RayEntry(rays: RayTable, s: Square, d: Direction)
    requires IsRayTable(rays)
    ensures rays[s][Index(d)] == Ray(s, d)
  {
    assert DIRS[Index(d)] == d;
  }

  /// Given the ray table, t is in the ray cast from s along d exactly when
  /// it lies along d with nothing occupied strictly between: the ray stops
  /// at, and includes, the first blocker.
  lemma RayAttacksSeen(rays: RayTable, s: Square, d: Direction, occ: BitBoard, t: Square)
    requires IsRayTable(rays)
    ensures t in RayAttacks(rays, s, d, occ) <==> TableGenSliders.Seen(s, t, d, occ)
  {
    RayAttacksAgree(rays, s, d, occ);
    TableGenSliders.RayAttacksSeen(s, d, occ, t);
  }

  /// Given the ray table, both slow lookups agree with the table
  /// generator's ray-cast attacks, the ground truth of the magic tables.
  lemma SlowAttacksAgree(rays: RayTable, s: Square, occ: BitBoard)
    requires IsRayTable(rays)
    ensures BishopAttacksSlow(rays, s, occ) == TableGenSliders.AttacksSlow(TableGenSliders.Bishop, s, occ)
    ensures RookAttacksSlow(rays, s, occ) == TableGenSliders.AttacksSlow(TableGenSliders.Rook, s, occ)
  {
    RayAttacksAgree(rays, s, UpLeft, occ);
    RayAttacksAgree(rays, s, UpRight, occ);
    RayAttacksAgree(rays, s, DownLeft, occ);
    RayAttacksAgree(rays, s, DownRight, occ);
    RayAttacksAgree(rays, s, Up, occ);
    RayAttacksAgree(rays, s, Down, occ);
    RayAttacksAgree(rays, s, Left, occ);
    RayAttacksAgree(rays, s, Right, occ);
  }

  /// With nothing in the way, a ray cast covers the whole ray.
  lemma UnblockedRay(rays: RayTable, s: Square, d: Direction, occ: BitBoard)
    requires IsRayTable(rays)
    requires Ray(s, d) * occ == EMPTY
    ensures RayAttacks(rays, s, d, occ) == Ray(s, d)
  {
    assert rays[s][Index(d)] == Ray(s, d);
  }
}
