// The magic-only attack lookups (src/tables.rs): the same reads as the
// board's lookups, with slider attacks always taken from the magic tables.
module MagicTables {
  import opened Squares
  import opened BitBoards
  import opened Magics
  import opened TableGenSliders
  import opened ChessboardTables

  /// `get_bishop_attacks`: the bishop table at the key of the square's
  /// magic; the board's lookup on a magic-table build.
  function GetBishopAttacks(data: MagicData, s: Square, occ: BitBoard): (r: BitBoard)
    requires Loaded(data)
    ensures r == AttacksSlow(Bishop, s, occ)
    ensures r == ChessboardTables.GetBishopAttacks(MagicTable(data), s, occ)
  {
    data.bishopAttacks[Key(data.bishopMagics[s], occ)]
  }

  /// `get_rook_attacks`: the rook table at the key of the square's magic.
  function GetRookAttacks(data: MagicData, s: Square, occ: BitBoard): (r: BitBoard)
    requires Loaded(data)
    ensures r == AttacksSlow(Rook, s, occ)
    ensures r == ChessboardTables.GetRookAttacks(MagicTable(data), s, occ)
  {
    data.rookAttacks[Key(data.rookMagics[s], occ)]
  }

  /// `get_ghost_bishop`: with friendly pieces among the occupied squares,
  /// the squares revealed behind the first friendly piece on each diagonal.
  function GetGhostBishop(data: MagicData, s: Square, occ: BitBoard, friendly: BitBoard): (r: BitBoard)
    requires Loaded(data)
    ensures friendly <= occ ==> r == Revealed(Bishop, s, occ, friendly)
  {
    var seen := GetBishopAttacks(data, s, occ);
    var seenFriends := friendly * seen;
    GhostSpec(Bishop, s, occ, friendly);
    Xor(seen, GetBishopAttacks(data, s, Xor(occ, seenFriends)))
  }

  /// `get_ghost_rook`: the same along ranks and files.
  function GetGhostRook(data: MagicData, s: Square, occ: BitBoard, friendly: BitBoard): (r: BitBoard)
    requires Loaded(data)
    ensures friendly <= occ ==> r == Revealed(Rook, s, occ, friendly)
  {
    var seen := GetRookAttacks(data, s, occ);
    var seenFriends := friendly * seen;
    GhostSpec(Rook, s, occ, friendly);
    Xor(seen, GetRookAttacks(data, s, Xor(occ, seenFriends)))
  }
}
