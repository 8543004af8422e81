# rchess move generator, modelled in Dafny

This project models the core of rchess, a bitboard chess move generator
written in Rust, and proves properties of that model. It covers:

- **The coordinate primitives**: squares, ranks, files, colours, piece
  kinds and directions, with their index arithmetic and text forms.
- **Bitboards and magic keys**: the 64-bit square set and the magic-key
  formula.
- **The attack-table builders**: rays, direct and axis connections, pawn,
  knight and king attacks, slider masks, occupancy enumeration and the
  magic-number search. Also the table lookups built on them, including
  the "ghost" x-ray lookups.
- **The board**: castling rights and the Zobrist hash; the board builder
  and its conversion into a board; FEN loading and writing; `make_move`
  with its pin and checker recomputation.
- **Legal move generation**: the per-piece generators, the fixed-size move
  list, move classification and creation (from squares and from text), the
  promotion-expanding move iterator, and perft.
- **The game wrapper** `ChessGame`: repetition counting and the
  classification of mate, stalemate, the fifty-move draw and insufficient
  material.

A bitboard is a `set<Square>` with `Square = 0..63`. Its u64 value is kept
through `ToU64`/`FromU64` (a sum of powers of two). That value is used
where arithmetic on it matters: the magic key with its wrap-around multiply
and shift, and the square-colour constants. Shifts keep the source's file
wrap-around. A position is the datatype `Positions.Position`, with its
six piece boards, two colour boards, side to move, castling rights,
en-passant square, half-move clock, Zobrist hash, pinned pieces and
checkers. The board class `ChessBoards.ChessBoard` keeps its piece and
colour boards in arrays and updates them in place. Its methods are proved
against functions of `Position` (`Play`, `Relocate`, `Moved`), and the
properties of make_move are lemmas about those functions
(`MakeMove.PlayEffect`, `MoveEffects.RelocateEffect`, ...).

The attack tables are the values the builders compute. The lookups are
functions over those tables, and the magic lookup is proved equal to the
ray-cast ground truth for every occupancy. Legal moves are described twice:

1. As the generator builds them: a list of `(start, targets)` entries, one
   per piece and kind.
2. As rules: the lemmas in `GeneratorRules`, which say which targets each
   kind of piece gets, in check and out of it, pinned and unpinned.

The move iterator is proved to yield exactly the moves of `ListMoves`,
with each promotion expanded to four moves. Perft is proved to count
the leaves of the game tree.

## Model

| member | source | states |
|---|---|---|
| `Colors.ToChar` | src/defs/color.rs:21-26 | the character is `'w'` or `'b'`, White gives `'w'` |
| `Colors.Index` | src/defs/color.rs:39-41 | the index is below 2 and `COLORS[index]` is the colour |
| `Colors.Opposite` | src/defs/color.rs:57-62 | `!c` differs from `c` |
| `Colors.OppositeInvolutive` | src/defs/color.rs:57-62 | `!!c == c` |
| `Pieces.ToChar` | src/defs/piece.rs:23-32 | the character is lower case and one of `pnbrqk` |
| `Pieces.FromChar` | src/defs/piece.rs:45-55 | a kind is returned exactly when the lower-cased character is one of `pnbrqk`, so both cases are accepted and any other character gives None |
| `Pieces.Index` | src/defs/piece.rs:68-70 | the index is below 6 and `PIECE_TYPES[index]` is the kind, so indices are distinct |
| `Pieces.CharRoundTrip` | src/defs/piece.rs:23-55 | `from_char(to_char(p)) == Some(p)` |
| `Pieces.FromCharToChar` | src/defs/piece.rs:23-55 | a recognised character maps back to its lower-case form |
| `Ranks.ToU8` | src/defs/rank.rs:56-58 | the value is below 8 and `RANKS[value]` is the rank |
| `Ranks.FromIndex` | src/defs/rank.rs:72-78 | `Some` exactly when the value is at most 7, holding the rank of that index |
| `Ranks.FromU8Unchecked` | src/defs/rank.rs:94-100 | for a value below 8 it returns the rank of that index |
| `Ranks.Of` | src/defs/rank.rs:41-44 | the rank of a square is its index divided by 8 |
| `Ranks.RanksOrdered` | src/defs/rank.rs:4-27 | `RANKS` lists First..Eighth in strictly increasing index order |
| `Ranks.IndexRoundTrip` | src/defs/rank.rs:56-78 | `from_index(to_u8(r)) == Some(r)` |
| `Files.ToU8` | src/defs/file.rs:56-58 | the value is below 8 and `FILES[value]` is the file |
| `Files.FromU8` | src/defs/file.rs:72-78 | `Some` exactly when the value is at most 7, holding the file of that index |
| `Files.Of` | src/defs/file.rs:41-44 | the file of a square is its index modulo 8 |
| `Files.FilesOrdered` | src/defs/file.rs:4-27 | `FILES` lists A..H in strictly increasing index order |
| `Files.IndexRoundTrip` | src/defs/file.rs:56-78 | `from_u8(to_u8(f)) == Some(f)` |
| `Directions.Index` | src/defs/direction.rs:39-41 | the index is below 8 and `DIRS[index]` is the direction, so indices are distinct and follow `DIRS` |
| `Directions.Edge` | src/defs/direction.rs:55-71 | a square is on the edge exactly when it is on the rank or file the direction runs into; a diagonal's edge is the union of its rank edge and its file edge |
| `Directions.Step` | src/defs/direction.rs:4-26 | one step in a direction changes rank and file by that direction's offsets |
| `Directions.ShiftDirStep` | src/defs/bitboard.rs:337-348 | off the direction's edge, `shift_dir` moves a single-square board one step in that direction |
| `Squares.At` | src/defs/square.rs:47-51 | the square has the given rank and file, so its index is `rank*8 + file` |
| `Squares.FromU8` | src/defs/square.rs:66-72 | `Some` exactly when the value is at most 63, holding the square of that index |
| `Squares.FromString` | src/defs/square.rs:115-145 | accepted exactly when the text is two characters `[a-h][1-8]`, giving the square of that file and rank |
| `Squares.ToString` | src/defs/square.rs:336-360 | the text is two characters, the file letter then the rank digit |
| `Squares.StringRoundTrip` | src/defs/square.rs:115-145 | `from_string(to_string(s)) == Ok(s)` |
| `Squares.ParsedStringRoundTrip` | src/defs/square.rs:115-145 | a text that parses is written back unchanged |
| `Squares.Up` | src/defs/square.rs:256-261 | None exactly on rank 8; otherwise index + 8 |
| `Squares.Down` | src/defs/square.rs:276-281 | None exactly on rank 1; otherwise index - 8 |
| `Squares.Left` | src/defs/square.rs:296-301 | None exactly on file A; otherwise index - 1 |
| `Squares.Right` | src/defs/square.rs:316-321 | None exactly on file H; otherwise index + 1 |
| `Squares.UpDownInverse` | src/defs/square.rs:256-281 | `up` then `down` (and `down` then `up`) returns the square |
| `Squares.LeftRightInverse` | src/defs/square.rs:296-321 | `left` then `right` (and `right` then `left`) returns the square |
| `SquareColors.SquareColor` | src/defs/square.rs:235-241 | `color()` is White exactly when rank + file is odd, so A1 and H8 are black and H1 and A8 white |
| `SquareColors.WhiteSquare` | src/defs/bitboard.rs:19-21 | a square overlaps `WHITE_SQUARES` exactly when rank + file is odd |
| `SquareColors.SquareColorConstants` | src/defs/bitboard.rs:19-26 | `0x55AA55AA55AA55AA` is the set of light squares and `0xAA55AA55AA55AA55` the set of dark squares |
| `BitBoards.ToU64` | src/defs/bitboard.rs:256-258 | the u64 value of a board is below 2^64 |
| `BitBoards.FromU64` | src/defs/bitboard.rs:240-242 | square s is on the board exactly when bit s of the value is set |
| `BitBoards.ToU64RoundTrip` | src/defs/bitboard.rs:240-258 | `from_u64(to_u64(b)) == b` |
| `BitBoards.FromU64RoundTrip` | src/defs/bitboard.rs:240-258 | `to_u64(from_u64(v)) == v` for every u64 `v` |
| `BitBoards.ToU64Bits` | src/defs/bitboard.rs:150-152 | bit s of the u64 value is set exactly when s is on the board |
| `BitBoards.ToU64Injective` | src/defs/bitboard.rs:7-9 | two boards with the same u64 value are equal |
| `BitBoards.BoardSize` | src/defs/bitboard.rs:165-167 | `popcnt` is at most 64 |
| `BitBoards.FromSquare` | src/defs/bitboard.rs:38-42 | the board holds exactly the one square |
| `BitBoards.FromSquares` | src/defs/bitboard.rs:53-64 | the loop's result holds exactly the squares of the list |
| `BitBoards.ShiftLeft` | src/defs/bitboard.rs:270-273 | `<< k` moves every square k up and loses those pushed past 63 |
| `BitBoards.ShiftRight` | src/defs/bitboard.rs:285-288 | `>> k` moves every square k down and loses those pushed below 0 |
| `BitBoards.Up` | src/defs/bitboard.rs:270-273 | `up` moves every square one rank up; the eighth rank is lost |
| `BitBoards.Down` | src/defs/bitboard.rs:285-288 | `down` moves every square one rank down; the first rank is lost |
| `BitBoards.Left` | src/defs/bitboard.rs:300-303 | `left` moves every square one index down, with no file mask |
| `BitBoards.Right` | src/defs/bitboard.rs:315-318 | `right` moves every square one index up, with no file mask |
| `BitBoards.LeftWraps` | src/defs/bitboard.rs:300-303 | off file A a square moves to its left neighbour; on file A it wraps to file H of the rank below |
| `BitBoards.FromRank` | src/defs/bitboard.rs:79-93 | the board holds exactly the 8 squares of the rank |
| `BitBoards.FromFile` | src/defs/bitboard.rs:108-122 | the board holds exactly the 8 squares of the file |
| `BitBoards.OverlapsSquare` | src/defs/bitboard.rs:135-152 | a board overlaps a single-square board exactly when it contains that square |
| `BitBoards.OverlapsUnion` | src/defs/bitboard.rs:135-137 | a union overlaps a board exactly when one of its parts does |
| `BitBoards.Xor` | src/defs/bitboard.rs:393-396 | the squares on exactly one of the two boards |
| `BitBoards.Neg` | src/defs/bitboard.rs:408-411 | the squares not on the board |
| `BitBoards.ScanForward` | src/defs/bitboard.rs:182-188 | None exactly on the empty board; otherwise the lowest square of the board |
| `BitBoards.ScanReverse` | src/defs/bitboard.rs:203-213 | None exactly on the empty board; otherwise the highest square of the board |
| `BitBoards.Next` | src/defs/bitboard.rs:491-495 | yields the lowest square and removes exactly it; an empty board yields None and stays empty |
| `BitBoards.Iterate` | src/defs/bitboard.rs:472-495 | iterating to exhaustion visits every square of the board once, in strictly ascending order |
| `Magics.CalculateKey` | src/defs/magic.rs:29-34 | the key has `64 - shift` bits |
| `Magics.CalculateKeyFormula` | src/defs/magic.rs:29-34 | the key is `((occ & mask) * magic mod 2^64) >> shift` |
| `Magics.WrappingMulIsProduct` | src/defs/magic.rs:30-31 | the wrapping multiply is the product modulo 2^64 |
| `Magics.ShrIsDiv` | src/defs/magic.rs:31-33 | `>> shift` is division by 2^shift |
| `Magics.KeyIgnoresUnmasked` | src/defs/magic.rs:30 | occupancies that agree on the mask get the same key |
| `Magics.Key` | src/defs/magic.rs:24-26 | `key(occ)` is `calculate_key(...) + offset`, so it lies in the square's own `2^(64 - shift)` slots from its offset |
| `Castling.New` | src/chessboard/castling_rights.rs:22-25 | no right is set and `is_none_set` holds |
| `Castling.Set` | src/chessboard/castling_rights.rs:42-49 | afterwards the right is set and the other three are unchanged |
| `Castling.Unset` | src/chessboard/castling_rights.rs:52-59 | afterwards the right is clear and the other three are unchanged |
| `Castling.UnsetColor` | src/chessboard/castling_rights.rs:62-67 | both of the colour's rights are clear and the other colour's are unchanged |
| `Castling.NoneSetIff` | src/chessboard/castling_rights.rs:27-29 | `is_none_set` holds exactly when no right is set |
| `Castling.SetIdempotent` | src/chessboard/castling_rights.rs:42-49 | setting a right twice is setting it once |
| `Castling.UnsetIdempotent` | src/chessboard/castling_rights.rs:52-59 | unsetting a right twice is unsetting it once |
| `Castling.UnsetColorBoth` | src/chessboard/castling_rights.rs:62-67 | `unset_color` is unsetting the kingside and the queenside right |
| `Zobrist.New` | src/chessboard/zobrist.rs:13-15 | the new hash holds no key (the zero word) |
| `Zobrist.Piece` | src/chessboard/zobrist.rs:25-28 | the hash changes by exactly the key of (colour, kind, square) |
| `Zobrist.CastleRight` | src/chessboard/zobrist.rs:31-37 | the hash changes by exactly the key of (side, colour) |
| `Zobrist.Ep` | src/chessboard/zobrist.rs:40-42 | the hash changes by exactly the key of the square's file |
| `Zobrist.ToggleTurn` | src/chessboard/zobrist.rs:46-48 | the hash changes by exactly the turn key |
| `Zobrist.ToggleInvolution` | src/zobrist.rs:25-48 | XOR-ing the same key twice restores the hash |
| `Zobrist.ToggleCommutes` | src/zobrist.rs:25-48 | two updates commute, so the hash does not depend on update order |
| `Zobrist.UpdatesAreInvolutions` | src/zobrist.rs:25-48 | `piece`, `castle_right`, `ep` and `toggle_turn` each undo themselves when applied twice |
| `Zobrist.EpSameFile` | src/zobrist.rs:40-42 | `ep` of two squares on the same file is the same update |
| `TableGenRays.RayContains` | src/table_gen/general.rs:20-27 | `RAYS[s][d]` holds exactly the squares lying in direction d from s, so it excludes s and is empty when s is on d's edge |
| `TableGenRays.RaySize` | src/table_gen/general.rs:20-27 | a ray holds as many squares as there are steps from s to d's edge |
| `TableGenRays.ShiftUntilEdge` | src/table_gen/general.rs:22-26 | the `while !edge.overlaps(pos)` loop collects exactly the ray |
| `TableGenRays.GenerateRays` | src/table_gen/general.rs:17-31 | every entry of the 64 x 8 table is the ray of that square and `DIRS` direction |
| `TableGenConnections.DirectConnectionSpec` | src/table_gen/general.rs:42-55 | a square is in the direct connection of a and b exactly when it lies strictly between them on a shared line |
| `TableGenConnections.DirectIsBetween` | src/table_gen/general.rs:42-55 | the entry built from the two-ended slider attacks is the between set, empty when a and b are not aligned or are equal |
| `TableGenConnections.AxisConnectionSpec` | src/table_gen/general.rs:74-86 | a square is in the axis connection of a and b exactly when it lies on the line through both (ends included); for a == b, on any line through a |
| `TableGenConnections.AxisIsLine` | src/table_gen/general.rs:74-86 | the entry built from the empty-board attacks is the axis set, empty when a and b are not aligned |
| `TableGenConnections.AxisConnectionSymmetric` | src/table_gen/general.rs:65-93 | `AXIS_CONNECTIONS[a][b] == AXIS_CONNECTIONS[b][a]` |
| `TableGenConnections.DirectWithinAxis` | src/table_gen/general.rs:34-93 | `DIRECT_CONNECTIONS[a][b]` is a subset of `AXIS_CONNECTIONS[a][b]` |
| `TableGenConnections.DirectEntry` | src/table_gen/general.rs:38-57 | one pair's entry, as the source computes it, is the between set |
| `TableGenConnections.GenerateDirectConnections` | src/table_gen/general.rs:34-62 | every entry of the 64 x 64 table is the between set of its pair |
| `TableGenConnections.AxisEntry` | src/table_gen/general.rs:69-88 | one pair's entry, as the source computes it, is the axis set |
| `TableGenConnections.GenerateAxisConnections` | src/table_gen/general.rs:65-93 | every entry of the 64 x 64 table is the axis set of its pair |
| `TableGenLeapers.PawnTargetsByOffset` | src/table_gen/leapers.rs:19-38 | a pawn attacks the on-board squares one rank forward (up for White, down for Black) and one file to either side |
| `TableGenLeapers.PawnEntry` | src/table_gen/leapers.rs:20-37 | the guarded shifts of one square give exactly its pawn attacks, with no file wrap |
| `TableGenLeapers.GeneratePawnAttacks` | src/table_gen/leapers.rs:16-40 | the 2 x 64 table, indexed by colour then square, holds each pawn-attack set |
| `TableGenLeapers.PawnLastRank` | src/table_gen/leapers.rs:21-36 | a white pawn on rank 8 and a black pawn on rank 1 attack nothing |
| `TableGenLeapers.PawnAttacksMirror` | src/table_gen/leapers.rs:16-40 | a white pawn on s attacks t exactly when a black pawn on t attacks s |
| `TableGenLeapers.KnightTargetsByOffset` | src/table_gen/leapers.rs:46-79 | the eight guarded shifts give exactly the squares one rank and two files, or two ranks and one file, away |
| `TableGenLeapers.KnightEntry` | src/table_gen/leapers.rs:47-78 | one square's entry, as the source computes it, is its knight-jump set |
| `TableGenLeapers.GenerateKnightAttacks` | src/table_gen/leapers.rs:43-81 | every entry of the 64-entry table is the knight-jump set of its square |
| `TableGenLeapers.KingTargetsByOffset` | src/table_gen/leapers.rs:87-120 | the eight guarded shifts give exactly the on-board neighbours |
| `TableGenLeapers.KingEntry` | src/table_gen/leapers.rs:88-119 | one square's entry, as the source computes it, is its neighbour set |
| `TableGenLeapers.GenerateKingAttacks` | src/table_gen/leapers.rs:84-122 | every entry of the 64-entry table is the neighbour set of its square |
| `TableGenLeapers.NoSelfAttack` | src/table_gen/leapers.rs:16-122 | no pawn, knight or king entry contains its own square |
| `TableGenLeapers.KnightSymmetric` | src/table_gen/leapers.rs:43-81 | a knight on s attacks t exactly when one on t attacks s |
| `TableGenLeapers.KingSymmetric` | src/table_gen/leapers.rs:84-122 | a king on s attacks t exactly when one on t attacks s |
| `TableGenLeapers.PawnCount` | src/table_gen/leapers.rs:16-40 | a pawn attacks at most 2 squares |
| `TableGenLeapers.KnightCount` | src/table_gen/leapers.rs:43-81 | a knight attacks at most 8 squares |
| `TableGenLeapers.KingCount` | src/table_gen/leapers.rs:84-122 | a king attacks at most 8 squares |
| `TableGenSliders.RayAttacks` | src/table_gen/sliders.rs:235-250 | the cut ray lies inside the full ray |
| `TableGenSliders.RayAttacksSeen` | src/table_gen/sliders.rs:235-250 | a square is in `ray_attacks(s, d, occ)` exactly when it lies along d from s with no occupied square strictly between, so the ray stops at and includes the first blocker (forward scan for Up, Right, UpLeft, UpRight, reverse scan otherwise) |
| `TableGenSliders.UnblockedSeen` | src/table_gen/sliders.rs:237-238 | with no blocker on the ray, the whole ray is returned |
| `TableGenSliders.BlockedSeen` | src/table_gen/sliders.rs:238-248 | with a first blocker b, the result is the ray minus the ray beyond b |
| `TableGenSliders.AttacksSlowSeen` | src/table_gen/sliders.rs:211-232 | bishop (rook) attacks are exactly the squares seen along one of the four diagonal (orthogonal) rays |
| `TableGenSliders.AttacksNonEmpty` | src/table_gen/sliders.rs:211-232 | a slider always attacks at least one square |
| `TableGenSliders.BishopMaskCoords` | src/table_gen/sliders.rs:176-185 | the bishop mask is the empty-board bishop attacks minus ranks 1 and 8 and files A and H |
| `TableGenSliders.RookMaskCoords` | src/table_gen/sliders.rs:188-208 | the rook mask is the empty-board rook attacks minus each border the square is not on |
| `TableGenSliders.MaskContains` | src/table_gen/sliders.rs:176-208 | the mask holds exactly the squares along the slider's directions that are not the last square before the edge |
| `TableGenSliders.MaskSize` | src/table_gen/sliders.rs:176-208 | a mask has at most 12 squares |
| `TableGenSliders.MaskRelevant` | src/table_gen/sliders.rs:176-232 | slider attacks depend only on the occupancy inside the mask |
| `MaskGenSliders.RayAttacksAgree` | src/mask_gen/sliders.rs:36-56 | over the rays table, `ray_attacks` equals the table generator's `ray_attacks` (src/table_gen/sliders.rs:235-250) |
| `MaskGenSliders.RayAttacksSeen` | src/mask_gen/sliders.rs:42-55 | the ray is kept up to and including the nearest blocker, found by forward scan for Up, Right, UpLeft, UpRight and by reverse scan otherwise |
| `MaskGenSliders.UnblockedRay` | src/mask_gen/sliders.rs:42-44 | with no blockers on the ray the whole ray is returned |
| `MaskGenSliders.SlowAttacksAgree` | src/mask_gen/sliders.rs:4-33 | the union of the 4 diagonal (orthogonal) rays equals the table generator's bishop (rook) attacks |
| `Attacks.SliderSymmetric` | src/chessboard/movegen/generator.rs:435-479 | a slider on s sees t exactly when one on t sees s, under the same occupancy |
| `Attacks.AttackMirror` | src/chessboard/movegen/generator.rs:435-479 | a piece of colour c on s attacks t exactly when the same kind of the other colour on t attacks s, which is why the attack test looks outward from the target |
| `OccupancyEnum.Combination` | src/table_gen/sliders.rs:273-285 | the k-th enumerated occupancy is a subset of the mask |
| `OccupancyEnum.CombinationIndexSpec` | src/table_gen/sliders.rs:273-285 | every subset of the mask is the combination at its index |
| `OccupancyEnum.CombinationRoundTrip` | src/table_gen/sliders.rs:273-285 | the index of the k-th combination is k, for k below 2^popcnt |
| `OccupancyEnum.Select` | src/table_gen/sliders.rs:277-282 | the loop over `mask.into_iter().enumerate()` keeps exactly the squares whose position bit is set |
| `OccupancyEnum.Occupancies.constructor` | src/table_gen/sliders.rs:261-267 | the counter starts at 0 and the count is `2^popcnt` wrapped to u16 |
| `OccupancyEnum.Occupancies.Next` | src/table_gen/sliders.rs:273-285 | None once the counter reaches the count; otherwise the current combination, and the counter advances by one |
| `OccupancyEnum.AllOccupancies` | src/table_gen/sliders.rs:259-286 | driving the iterator yields `2^popcnt(mask)` (u16-wrapped) occupancies, the k-th being combination k |
| `OccupancyEnum.AllSubsetsEnumerated` | src/table_gen/sliders.rs:259-286 | for a mask of at most 15 squares every subset is enumerated, at its own index |
| `TableGenMagics.Bits` | src/table_gen/sliders.rs:8-30 | key widths are between 1 and 12 bits, at most 9 for the bishop |
| `TableGenMagics.BishopBitsRange` | src/table_gen/sliders.rs:8-17 | every `BISHOP_BITS` entry is between 5 and 9 |
| `TableGenMagics.RookBitsRange` | src/table_gen/sliders.rs:21-30 | every `ROOK_BITS` entry is between 10 and 12 |
| `TableGenMagics.KeysFitScratch` | src/table_gen/sliders.rs:52-55 | with `shift = 64 - BITS[sq]` every key fits the 512-slot (bishop) or 4096-slot (rook) scratch table |
| `TableGenMagics.StoreStep` | src/table_gen/sliders.rs:73-78 | one more pair keeps the candidate collision-free exactly when its slot is still empty or already holds the same attacks |
| `TableGenMagics.MaxKeyBounds` | src/table_gen/sliders.rs:71 | the running `max_key` is at least every key seen so far |
| `TableGenMagics.StorePair` | src/table_gen/sliders.rs:69-78 | one iteration updates `max_key`, stores into the scratch slot, and reports success exactly when the pairs so far have no collision |
| `TableGenMagics.FillTable` | src/table_gen/sliders.rs:66-79 | the fill loop over a cleared table succeeds exactly when no two pairs with non-empty attacks share a key with different attacks; then `max_key` is the largest key |
| `TableGenMagics.TryMagic` | src/table_gen/sliders.rs:62-83 | one candidate: `fill(EMPTY)` then the fill loop; accepted exactly when there is no collision, an empty slot counting as free |
| `TableGenMagics.FindMagic` | src/table_gen/sliders.rs:61-84 | the retry loop returns the first candidate of the stream without a collision, with its largest key; every candidate skipped has a collision |
| `TableGenMagics.FnsSound` | src/table_gen/sliders.rs:176-232 | both sliders' masks have at most 12 squares, their attacks are never empty, and their attacks depend only on the occupancy inside the mask |
| `TableGenMagics.OccupancyAttacks` | src/table_gen/sliders.rs:56-59 | `occupancy_attacks` lists every occupancy of the mask in enumeration order with its ray-cast attacks |
| `TableGenMagics.SquarePairsSpec` | src/table_gen/sliders.rs:56-59 | the list has `2^popcnt(mask)` pairs and each occupancy is a subset of the mask |
| `TableGenMagics.SharedKeySameAttacks` | src/table_gen/sliders.rs:63-84 | for an accepted candidate, two occupancies of the mask on the same key have the same attacks |
| `TableGenMagics.AcceptedIsMagic` | src/table_gen/sliders.rs:63-87 | an accepted candidate, with the square's mask and `shift = 64 - BITS[sq]`, is a magic for the square |
| `TableGenMagics.SquareMagic` | src/table_gen/sliders.rs:51-87 | one square's search returns a magic for the square at the given offset, drawn from the stream, taking `max_key + 1` slots |
| `TableGenMagics.ChainStep` | src/table_gen/sliders.rs:86-87 | pushing a magic at `current_offset` and adding its slots keeps every offset the sum of the earlier squares' slots |
| `TableGenMagics.ChainedIsValid` | src/table_gen/sliders.rs:46-91 | after 64 squares the magics are complete: offset 0 first, each square's keys inside its own slots, and the total is where the last square ends |
| `TableGenMagics.GenerateMagicsWith` | src/table_gen/sliders.rs:46-91 | when every square finds a magic, the result is a complete, gap-free set of magics with the final offset as the total |
| `TableGenMagics.GenerateMagics` | src/table_gen/sliders.rs:46-138 | `generate_bishop_magics` and `generate_rook_magics`, over a given candidate stream |
| `TableGenMagics.KeyBelowTotal` | src/table_gen/sliders.rs:86-90 | every key of every square lies below the returned total |
| `TableGenMagics.StoreSquare` | src/table_gen/sliders.rs:148-155 | after one square's loop, that square and every earlier one read back their ray-cast attacks at every key |
| `TableGenMagics.GenerateAttacksWith` | src/table_gen/sliders.rs:145-173 | the table has the total size and `table[magic.key(occ)]` is the ray-cast attacks for every square and occupancy |
| `TableGenMagics.GenerateAttacks` | src/table_gen/sliders.rs:145-173 | `generate_bishop_attacks` and `generate_rook_attacks`: `table[magic.key(occ)] == get_*_attacks_slow(sq, occ)` for every occupancy |
| `TableGenMagics.MaskedLookup` | src/defs/magic.rs:29-34 | the key and the attacks of an occupancy are those of its masked part |
| `TableGenMagics.ValidMagicsHash` | src/table_gen/sliders.rs:46-91 | two occupancies with the same key have the same ray-cast attacks |
| `ChessboardTables.RaysTable` | src/table_gen/general.rs:17-31 | the generated `RAYS` table holds, for each square and direction, the squares up to the edge in that direction |
| `ChessboardTables.GetPawnAttacks` | src/chessboard/tables.rs:9-11 | a square is attacked by a pawn of the colour exactly when it is one rank ahead (for that colour) and one file to either side |
| `ChessboardTables.GetKnightAttacks` | src/chessboard/tables.rs:14-16 | exactly the squares a knight's jump away |
| `ChessboardTables.GetKingAttacks` | src/chessboard/tables.rs:19-21 | exactly the neighbouring squares |
| `ChessboardTables.GetDirectConnection` | src/chessboard/tables.rs:24-26 | exactly the squares strictly between the two on a shared line (none when they share no line) |
| `ChessboardTables.GetConnectionAxis` | src/chessboard/tables.rs:29-31 | exactly the full line through both squares (none when they share no line) |
| `ChessboardTables.RayCastReady` | src/chessboard/tables.rs:41-44 | without the `magic-table` feature the ray table the lookups cast over is the generated one |
| `ChessboardTables.MagicLookup` | src/chessboard/tables.rs:35-39 | a loaded magic table read at the key of the square's magic gives the ray-cast attacks |
| `ChessboardTables.GetBishopAttacks` | src/chessboard/tables.rs:34-45 | on either build, the squares a bishop on the square sees: along each diagonal up to and including the first occupied square |
| `ChessboardTables.GetRookAttacks` | src/chessboard/tables.rs:48-59 | the same along ranks and files |
| `ChessboardTables.AttacksAntitone` | src/chessboard/tables.rs:62-81 | adding occupied squares never adds attacked squares |
| `ChessboardTables.RevealedBehind` | src/chessboard/tables.rs:66-69 | a square the lifted lookup adds lies on a line beyond a seen friendly piece |
| `ChessboardTables.BehindRevealed` | src/chessboard/tables.rs:66-69 | a square seen beyond the first friendly piece on a line is hidden before the lift and seen after it |
| `ChessboardTables.GhostSpec` | src/chessboard/tables.rs:62-81 | the XOR of the seen squares and the squares seen with the seen friends lifted is exactly the squares revealed behind the first friendly piece on each line, and none of them is seen directly |
| `ChessboardTables.GetGhostBishop` | src/chessboard/tables.rs:62-70 | with the friendly pieces among the occupied squares, exactly the squares revealed behind the first friendly piece on each diagonal, disjoint from the bishop's own attacks |
| `ChessboardTables.GetGhostRook` | src/chessboard/tables.rs:73-81 | the same along ranks and files |
| `MagicTables.GetBishopAttacks` | src/tables.rs:31-34 | the magic read gives the ray-cast bishop attacks, and agrees with the board's lookup on a magic-table build |
| `MagicTables.GetRookAttacks` | src/tables.rs:37-40 | the same for the rook |
| `MagicTables.GetGhostBishop` | src/tables.rs:43-51 | the squares revealed behind the first friendly piece on each diagonal |
| `MagicTables.GetGhostRook` | src/tables.rs:54-62 | the same along ranks and files |
| `Positions.Query` | src/chessboard/chessboard.rs:950-953 | a square is in the result exactly when it is in both the kind's board and the color's board |
| `Positions.Occupancy` | src/chessboard/chessboard.rs:957-959 | a square is occupied exactly when either color's board holds it |
| `Positions.PieceAt` | src/chessboard/chessboard.rs:915-946 | no piece exactly on an empty square; the color is the board holding the square, White first; the kind is one whose board holds the square when there is one |
| `Positions.PieceAtFrame` | src/chessboard/chessboard.rs:915-946 | `piece_at` reads only the piece and color boards |
| `Positions.KingSquare` | src/chessboard/chessboard.rs:999-1003 | the square returned holds a king of the color |
| `Positions.IsAttacked` | src/chessboard/chessboard.rs:781-828 | true exactly when some piece of the attacking color attacks the square on the current occupancy |
| `Positions.KindFrom` | src/chessboard/chessboard.rs:784-825 | for each kind, the mirrored pattern cast from the square meets a piece of that kind exactly when such a piece attacks the square |
| `Positions.PatternsAsHits` | src/chessboard/chessboard.rs:784-825 | the five tests of `is_attacked` (queens folded into the bishop and rook tests) are the six per-kind tests |
| `Positions.PatternsPerKind` | src/chessboard/chessboard.rs:784-825 | some test fires exactly when the test of some kind fires |
| `Positions.AttackedFrom` | src/chessboard/chessboard.rs:781-828 | looking outward from the square finds every attacker and nothing else |
| `Positions.Insert` | src/chessboard/chessboard.rs:833-838 | keeps the six piece and two color boards; what it does to the pieces is `MoveEffects.InsertEffect` |
| `Positions.Remove` | src/chessboard/chessboard.rs:843-848 | keeps the board arrays and changes the occupancy of no other square; its effect is `MoveEffects.RemoveEffect` |
| `Positions.MovePiece` | src/chessboard/chessboard.rs:853-859 | keeps the board arrays; its effect is `MoveEffects.MovePieceEffect` |
| `Positions.UnsetCastleRight` | src/chessboard/chessboard.rs:874-879 | the boards are untouched, the right is off afterwards, every other right is as before, and valid rights stay valid |
| `Positions.UnsetColorRights` | src/chessboard/chessboard.rs:882-885 | the boards are untouched and both of the color's rights are off |
| `Positions.MovingRookRights` | src/chessboard/chessboard.rs:539-554 | the boards are untouched; a rook of the mover leaving a corner loses that side's right |
| `Positions.CapturedRookRights` | src/chessboard/chessboard.rs:583-598 | the boards are untouched; landing on an opponent's rook corner takes that side's right from the opponent |
| `Positions.MoverRights` | src/chessboard/chessboard.rs:536-557 | the boards are untouched; a king move drops both of the mover's rights, a rook move the one of its corner |
| `Positions.CaptureRelocated` | src/chessboard/chessboard.rs:561-607 | the Capture arm keeps the board arrays, the turn and the clock |
| `Positions.CastleRelocated` | src/chessboard/chessboard.rs:608-625 | the Castle arm keeps the board arrays, the turn and the clock |
| `Positions.EnPassantRelocated` | src/chessboard/chessboard.rs:638-649 | the EnPassant arm keeps the board arrays, the turn and the clock |
| `Positions.PromoteCaptureRelocated` | src/chessboard/chessboard.rs:659-687 | the PromoteCapture arm keeps the board arrays, the turn and the clock |
| `Positions.Relocate` | src/chessboard/chessboard.rs:534-688 | the piece movements of every arm keep the board arrays, the turn and the clock |
| `Positions.ApplicableAfterPass` | src/chessboard/chessboard.rs:530-531 | clearing the en-passant square and passing the turn keep the move's unwraps valid |
| `Positions.Moved` | src/chessboard/chessboard.rs:525-695 | passes the turn and sets the clock to 0 after a pawn move or capture, else to the old clock plus one modulo 256 |
| `Positions.MovedSteps` | src/chessboard/chessboard.rs:527-695 | `make_move` is: clear the en-passant square, pass the turn, move the pieces for the old side to move |
| `Positions.WithExtraData` | src/chessboard/chessboard.rs:701-704 | only the pinned and checkers fields change |
| `Positions.Play` | src/chessboard/chessboard.rs:525-698 | `make_move` keeps the board arrays; its effects are `MakeMove.PlayEffect`, `PlayEnPassant`, `PlayClock` and `PlayRights` |
| `MoveEffects.PieceAtReads` | src/chessboard/chessboard.rs:915-946 | on boards that hold exactly a mailbox's pieces, `piece_at` reads the mailbox, and every occupied square is in one piece board and one color board |
| `MoveEffects.RealizesUnique` | src/chessboard/chessboard.rs:143-170 | only one mailbox fits a board |
| `MoveEffects.PieceKeyPresent` | src/chessboard/zobrist.rs:25-28 | a piece key is part of the hash exactly when the mailbox has that piece on that square |
| `MoveEffects.HashFollowsMailbox` | src/chessboard/chessboard.rs:837-858 | toggling the piece keys of the squares whose contents change keeps the hash the Zobrist hash of the position |
| `MoveEffects.InsertEffect` | src/chessboard/chessboard.rs:830-838 | on an empty square, `insert` leaves the piece there, the rest unchanged and the hash consistent |
| `MoveEffects.RemoveEffect` | src/chessboard/chessboard.rs:840-848 | on an occupied square, `remove` does not panic and empties the square, the rest unchanged and the hash consistent |
| `MoveEffects.MovePieceEffect` | src/chessboard/chessboard.rs:850-859 | from a square holding the piece to an empty square, `move_piece` carries it over, the rest unchanged |
| `MoveEffects.UnsetCastleRightEffect` | src/chessboard/chessboard.rs:874-879 | the pieces stay and the hash stays consistent |
| `MoveEffects.SetCastleRightEffect` | src/chessboard/chessboard.rs:868-871 | on an unset right, the right is set and the hash stays consistent |
| `MoveEffects.ToggleTurnEffect` | src/chessboard/chessboard.rs:862-865 | the other side is to move and the hash stays consistent |
| `MoveEffects.ClearEpEffect` | src/chessboard/chessboard.rs:894-899 | there is no en-passant square afterwards and the hash stays consistent |
| `MoveEffects.SetEpEffect` | src/chessboard/chessboard.rs:888-891 | on a board without an en-passant square, the hash stays consistent |
| `MoveEffects.UnsetColorRightsEffect` | src/chessboard/chessboard.rs:882-885 | the pieces stay and the hash stays consistent |
| `MoveEffects.MovingRookRightsEffect` | src/chessboard/chessboard.rs:539-554 | the pieces stay and the hash stays consistent |
| `MoveEffects.CapturedRookRightsEffect` | src/chessboard/chessboard.rs:583-598 | the pieces stay and the hash stays consistent |
| `MoveEffects.MoverRightsEffect` | src/chessboard/chessboard.rs:536-557 | the pieces stay and the hash stays consistent |
| `MoveEffects.OccupancyReads` | src/chessboard/chessboard.rs:957-959 | a square is occupied exactly when the mailbox holds a piece there |
| `MoveEffects.RelocateQuiet` | src/chessboard/chessboard.rs:535-560 | a quiet move carries the mover to its empty end square |
| `MoveEffects.RelocateCapture` | src/chessboard/chessboard.rs:561-607 | a capture empties the start and leaves the mover on the end square |
| `MoveEffects.RelocateCastle` | src/chessboard/chessboard.rs:608-625 | castling carries the king and the rook to their castled squares |
| `MoveEffects.RelocateDoublePush` | src/chessboard/chessboard.rs:626-637 | a double push carries the pawn two squares ahead |
| `MoveEffects.RelocateEnPassant` | src/chessboard/chessboard.rs:638-649 | en passant removes the pawn behind the end square and carries the capturing pawn |
| `MoveEffects.RelocatePromote` | src/chessboard/chessboard.rs:650-658 | a promotion removes the pawn and puts the new piece on the end square |
| `MoveEffects.RelocatePromoteCapture` | src/chessboard/chessboard.rs:659-687 | a capturing promotion leaves only the new piece on the end square |
| `MoveEffects.RelocateEffect` | src/chessboard/chessboard.rs:534-688 | for any sensible move the unwraps hold and the boards end up holding what the rules of chess say the move leaves |
| `MakeMove.MovedEffect` | src/chessboard/chessboard.rs:525-695 | a sensible move keeps the boards, hash and rights consistent, moves the pieces as the rules describe and passes the turn |
| `MakeMove.KingStays` | src/chessboard/chessboard.rs:525-698 | a sensible move never removes the opponent's king |
| `MakeMove.PlayEffect` | src/chessboard/chessboard.rs:525-698 | `make_move` runs to the end, the board is consistent, holds the pieces the move leaves, and the other side is to move |
| `MakeMove.PlayEnPassant` | src/chessboard/chessboard.rs:626-631 | only a double push leaves an en-passant square, the square the pawn passed over |
| `MakeMove.ResetsClockRule` | src/chessboard/chessboard.rs:533-687 | the clock is reset exactly for a pawn move or a capture |
| `MakeMove.PlayClock` | src/chessboard/chessboard.rs:690-694 | after a pawn move or capture the clock is 0, otherwise the old clock plus one modulo 256 |
| `MakeMove.MovingRookRightsRule` | src/chessboard/chessboard.rs:539-554 | a right survives a rook leaving `start` exactly when it was set and the rook did not leave that side's corner |
| `MakeMove.CapturedRookRightsRule` | src/chessboard/chessboard.rs:583-598 | a right survives a capture on `end` exactly when it was set and `end` is not the opponent's corner for it |
| `MakeMove.MoverRightsRule` | src/chessboard/chessboard.rs:536-557 | a right survives the mover's change exactly when it was set and the mover is not that side's king or the rook leaving its corner |
| `MakeMove.UnsetColorRightsRule` | src/chessboard/chessboard.rs:882-885 | a right survives exactly when it was set and belongs to the other color |
| `MakeMove.CaptureRights` | src/chessboard/chessboard.rs:561-607 | the rights after the Capture arm |
| `MakeMove.PromoteCaptureRights` | src/chessboard/chessboard.rs:659-687 | the rights after the PromoteCapture arm |
| `MakeMove.CastleRights` | src/chessboard/chessboard.rs:608-625 | the rights after the Castle arm: both of the mover's go |
| `MakeMove.RelocateRights` | src/chessboard/chessboard.rs:534-688 | after the piece movements a right is set exactly when it was set and the move does not revoke it |
| `MakeMove.PlayRights` | src/chessboard/chessboard.rs:525-698 | after `make_move` a right is set exactly when it was set and the move does not revoke it |
| `MakeMove.HomesUntouched` | src/chessboard/chessboard.rs:534-688 | a sensible move that does not revoke a right leaves that right's king and rook at home |
| `MakeMove.PlayKeepsRightsBacked` | src/chessboard/chessboard.rs:525-698 | every castling right still set after `make_move` has its king and its rook on their home squares |
| `ChessBoards.ShadowedStep` | src/chessboard/chessboard.rs:731-733 | adding one pinner to those scanned adds the friendly pieces between it and the king |
| `ChessBoards.LeaperLookups` | src/chessboard/tables.rs:9-16 | the pawn and knight lookups read the generated targets |
| `ChessBoards.CheckersByLookup` | src/chessboard/chessboard.rs:746-764 | the checkers are the enemy pawns, knights, bishops-or-queens and rooks-or-queens on the patterns the lookups cast from the king |
| `ChessBoards.PinnerScan` | src/chessboard/chessboard.rs:717-728 | the pinners found through the ghost lookups are exactly the enemy sliders that see the king once the first friendly piece on their line is lifted |
| `ChessBoards.PinnedBehind` | src/chessboard/chessboard.rs:731-733 | the loop over the pinners collects exactly the friendly pieces strictly between some pinner and the king |
| `ChessBoards.ScanPinned` | src/chessboard/chessboard.rs:707-734 | `calculate_pinned` on a board value gives the friendly pieces between the king and a pinner |
| `ChessBoards.ScanCheckers` | src/chessboard/chessboard.rs:737-765 | `calculate_checkers` on a board value gives the checkers |
| `ChessBoards.ChessBoard.State` | src/chessboard/chessboard.rs:143-170 | the struct's fields, read as a value with six piece boards and two color boards |
| `ChessBoards.ChessBoard.constructor` | src/chessboard/chessboard.rs:143-170 | a board holding the given fields in fresh arrays |
| `ChessBoards.ChessBoard.Clone` | src/chessboard/chessboard.rs:141 | a new board with its own arrays and the same state |
| `ChessBoards.ChessBoard.Insert` | src/chessboard/chessboard.rs:833-838 | the new state is `Positions.Insert` of the old one |
| `ChessBoards.ChessBoard.Remove` | src/chessboard/chessboard.rs:843-848 | on an occupied square, the new state is `Positions.Remove` of the old one |
| `ChessBoards.ChessBoard.MovePiece` | src/chessboard/chessboard.rs:853-859 | the new state is `Positions.MovePiece` of the old one |
| `ChessBoards.ChessBoard.ToggleTurn` | src/chessboard/chessboard.rs:862-865 | the new state is `Positions.ToggleTurn` of the old one |
| `ChessBoards.ChessBoard.SetCastleRight` | src/chessboard/chessboard.rs:868-871 | the new state is `Positions.SetCastleRight` of the old one |
| `ChessBoards.ChessBoard.UnsetCastleRight` | src/chessboard/chessboard.rs:874-879 | the new state is `Positions.UnsetCastleRight` of the old one |
| `ChessBoards.ChessBoard.UnsetColorRights` | src/chessboard/chessboard.rs:882-885 | the new state is `Positions.UnsetColorRights` of the old one |
| `ChessBoards.ChessBoard.SetEp` | src/chessboard/chessboard.rs:888-891 | the new state is `Positions.SetEp` of the old one |
| `ChessBoards.ChessBoard.ClearEp` | src/chessboard/chessboard.rs:894-899 | the new state is `Positions.ClearEp` of the old one |
| `ChessBoards.ChessBoard.SetHalfMoveClock` | src/chessboard/chessboard.rs:690-694 | only the clock changes |
| `ChessBoards.ChessBoard.RevokeMovingRook` | src/chessboard/chessboard.rs:540-554 | the new state is `Positions.MovingRookRights` of the old one |
| `ChessBoards.ChessBoard.RevokeCapturedRook` | src/chessboard/chessboard.rs:584-598 | the new state is `Positions.CapturedRookRights` of the old one |
| `ChessBoards.ChessBoard.CalculatePinned` | src/chessboard/chessboard.rs:707-734 | only the pinned field changes, and it becomes the friendly pieces between the king and a pinner |
| `ChessBoards.ChessBoard.CalculateCheckers` | src/chessboard/chessboard.rs:737-765 | only the checkers field changes, and it becomes the enemy pieces attacking the king |
| `ChessBoards.ChessBoard.CalculateExtraData` | src/chessboard/chessboard.rs:701-704 | pins, then checkers: the new state is `WithExtraData` of the old one |
| `ChessBoards.ChessBoard.RevokeMoverRights` | src/chessboard/chessboard.rs:536-557 | the new state is `Positions.MoverRights` of the old one |
| `ChessBoards.ChessBoard.MakeCapture` | src/chessboard/chessboard.rs:561-607 | the new state is the Capture arm's |
| `ChessBoards.ChessBoard.MakeCastle` | src/chessboard/chessboard.rs:608-625 | the new state is the Castle arm's |
| `ChessBoards.ChessBoard.MakeEnPassant` | src/chessboard/chessboard.rs:638-649 | the new state is the EnPassant arm's |
| `ChessBoards.ChessBoard.MakePromoteCapture` | src/chessboard/chessboard.rs:659-687 | the new state is the PromoteCapture arm's |
| `ChessBoards.ChessBoard.MovePieces` | src/chessboard/chessboard.rs:534-688 | the new state is `Relocate` of the old one, and the flag says whether the clock restarts |
| `ChessBoards.ChessBoard.Advance` | src/chessboard/chessboard.rs:525-695 | the new state is `Moved` of the old one |
| `ChessBoards.ChessBoard.MakeMove` | src/chessboard/chessboard.rs:525-698 | the new state is `Play` of the old one, whose effects `MakeMove.PlayEffect`, `PlayRights`, `PlayClock` and `PlayEnPassant` state |
| `ChessBoards.ChessBoard.GetChild` | src/chessboard/chessboard.rs:430-434 | a fresh board holding `Play` of this board's state; this board is untouched |
| `BoardBuilders.New` | src/chessboard/builder.rs:41-50 | an empty, valid builder with no piece, no turn, no en-passant square and no rights |
| `BoardBuilders.Piece` | src/chessboard/builder.rs:53-88 | TwoKings exactly for a second king of the color; PawnOnLast exactly for a pawn on its last rank (when not refused for a king); TwoPieces exactly for an occupied square otherwise; on success the map and both boards gain the piece and the hash gains its key |
| `BoardBuilders.Turn` | src/chessboard/builder.rs:90-101 | TurnAlreadySet exactly when a turn was set; otherwise the turn is set, Black's turn toggling the turn key, and nothing else changes |
| `BoardBuilders.CastleRight` | src/chessboard/builder.rs:103-116 | CastleRightAlreadySet exactly when the right is set; otherwise only that right is added, with its key |
| `BoardBuilders.EnPassant` | src/chessboard/builder.rs:118-127 | EnPassantAlreadySet exactly when a square was set; otherwise the square is set with its file's key, nothing else changing |
| `BoardBuilders.PiecePreservesValid` | src/chessboard/builder.rs:53-88 | placing a piece keeps the builder valid: at most one king per color, no pawn on its last rank, map and boards agreeing, hash matching |
| `BoardBuilders.TurnPreservesValid` | src/chessboard/builder.rs:90-101 | setting the turn keeps the builder valid |
| `BoardBuilders.CastleRightPreservesValid` | src/chessboard/builder.rs:103-116 | granting a right keeps the builder valid |
| `BoardBuilders.EnPassantPreservesValid` | src/chessboard/builder.rs:118-127 | setting the en-passant square keeps the builder valid |
| `BuilderConversion.Converted` | src/chessboard/chessboard.rs:386-396 | the board literal: the builder's boards, rights, turn and hash, no en-passant square, no pins or checkers, clock 0 |
| `BuilderConversion.BothKings` | src/chessboard/chessboard.rs:312-314 | two kings on a valid builder are one of each color |
| `BuilderConversion.Screen` | src/chessboard/chessboard.rs:298-384 | the first failing check in source order: TooManyPieces exactly when a color has more than 18 pieces, TurnNotSet, MissingKing, InvalidEnPassant, InvalidCastleRight; passing means each color has one king |
| `BuilderConversion.ScreenedKings` | src/chessboard/chessboard.rs:312-314 | a screened builder converts to a board with a king of each color |
| `BuilderConversion.Rejection` | src/chessboard/chessboard.rs:297-403 | InactiveKingAttacked exactly when the screen passes and the side to move attacks the other king |
| `BuilderConversion.CheckEnPassant` | src/chessboard/chessboard.rs:316-340 | accepts exactly an en-passant square on rank 6 above a black pawn (White to move) or on rank 3 below a white pawn (Black to move) |
| `BuilderConversion.CheckCastleRights` | src/chessboard/chessboard.rs:342-384 | accepts exactly what the four castling blocks as written accept |
| `BuilderConversion.ScreenBuilder` | src/chessboard/chessboard.rs:298-384 | returns the first failing check |
| `BuilderConversion.FromBuilder` | src/chessboard/chessboard.rs:297-408 | fails exactly when a check fails, with that error; otherwise a fresh board holding the literal with pins and checkers computed |
| `BuilderConversion.ConvertedSound` | src/chessboard/chessboard.rs:386-396 | a builder without an en-passant square converts to a consistent board with a matching hash |
| `BuilderConversion.ConvertedDropsEp` | src/chessboard/chessboard.rs:316-390 | with an en-passant square, the converted board's hash is not its position's hash |
| `BuilderConversion.ConvertedKeepingEp` | src/chessboard/chessboard.rs:386-396 | the literal as intended, keeping the builder's en-passant square |
| `BuilderConversion.ConvertedKeepingEpSound` | src/chessboard/chessboard.rs:386-396 | every valid builder with a turn converts to a consistent board once the en-passant square is kept |
| `BuilderConversion.CastleChecksAsWrittenWrong` | src/chessboard/chessboard.rs:375-384 | the blocks as written accept a black queenside right on an empty board and refuse a backed black kingside right when A8 is empty |
| `BuilderConversion.CastleChecksMeaning` | src/chessboard/chessboard.rs:342-384 | the intended blocks accept exactly the rights whose king and rook stand at home |
| `Fen.SpaceRun` | src/chessboard/chessboard.rs:207 | the leading run of whitespace: every character in it is whitespace and the next one is not |
| `Fen.WordRun` | src/chessboard/chessboard.rs:207 | the leading run of non-whitespace, ended by whitespace or the end |
| `Fen.Words` | src/chessboard/chessboard.rs:207 | `split_whitespace` yields only non-empty, whitespace-free fields |
| `Fen.WordsSkipSpace` | src/chessboard/chessboard.rs:207 | leading whitespace does not change the fields |
| `Fen.WordsTakeWord` | src/chessboard/chessboard.rs:207 | a word followed by whitespace or nothing is the first field |
| `Fen.WordsJoin` | src/chessboard/chessboard.rs:514-517 | splitting fields joined by single spaces gives the fields back |
| `Fen.PieceFromChar` | src/chessboard/chessboard.rs:215-218 | exactly the twelve piece letters parse, upper case being White |
| `Fen.PieceToChar` | src/chessboard/chessboard.rs:466 | a piece is written as one of the twelve piece letters |
| `Fen.PieceCharRoundTrip` | src/chessboard/chessboard.rs:215-218 | a written piece letter parses back to the piece |
| `Fen.PlaceLetter` | src/chessboard/chessboard.rs:215-220 | a letter at a counter past 63 is InvalidPieceSection; otherwise it fails exactly when the builder's `piece` fails, with that error, and on success the square gains the piece |
| `Fen.PlaceChar` | src/chessboard/chessboard.rs:212-230 | a letter places and steps, a digit skips, `/` goes back 16 on the u8 counter; any other character is InvalidPieceSection; turn, rights and en-passant square are untouched |
| `Fen.PlacePieces` | src/chessboard/chessboard.rs:212-231 | the piece section keeps the builder valid and touches nothing but the pieces; its errors are InvalidPieceSection or a builder error |
| `Fen.LoadPieces` | src/chessboard/chessboard.rs:210-231 | the loop over the piece section computes `PlacePieces` from A8 |
| `Fen.TurnField` | src/chessboard/chessboard.rs:234-239 | `w` and `b` set the turn on a builder without one; any other text is InvalidTurnSection |
| `Fen.RightOf` | src/chessboard/chessboard.rs:246-251 | exactly `K`, `Q`, `k`, `q` name rights, each the one whose letter it is |
| `Fen.CastleLetters` | src/chessboard/chessboard.rs:245-253 | the letters keep the builder valid and touch only the rights; errors are InvalidCastleRights or a repeated right |
| `Fen.CastleField` | src/chessboard/chessboard.rs:242-254 | `-` leaves the builder as it is |
| `Fen.LoadCastleRights` | src/chessboard/chessboard.rs:242-254 | the loop over the castling field computes `CastleField` |
| `Fen.EnPassantField` | src/chessboard/chessboard.rs:257-262 | a square name sets that square, `-` leaves the builder as it is, anything else is InvalidEnPassant |
| `Fen.FenBuilder` | src/chessboard/chessboard.rs:204-262 | the builder of the first four fields is valid and has a turn; no field at all is MissingPieceSection |
| `Fen.BuildFromFields` | src/chessboard/chessboard.rs:204-262 | the builder steps of `from_fen` compute `FenBuilder` |
| `Fen.ParseU8` | src/chessboard/chessboard.rs:268 | `parse::<u8>` yields a value below 256 |
| `Fen.DecimalValueOf` | src/chessboard/chessboard.rs:268 | printed digits read back as the number |
| `Fen.ParseU8Decimal` | src/chessboard/chessboard.rs:268 | a u8 printed in decimal parses back |
| `Fen.Finished` | src/chessboard/chessboard.rs:264-278 | a board loaded from a builder has no en-passant square, a clock of at most 100 and a king of each color |
| `Fen.FenOutcome` | src/chessboard/chessboard.rs:202-279 | a loaded board has no en-passant square and a king of each color |
| `Fen.Finish` | src/chessboard/chessboard.rs:264-278 | the conversion and the clock field: fails exactly as `Finished` does, else a fresh board holding its position |
| `Fen.FromFen` | src/chessboard/chessboard.rs:202-279 | fails exactly when `FenOutcome` does, with its error; otherwise a fresh board holding the loaded position |
| `Fen.NewBoard` | src/chessboard/chessboard.rs:175-177 | `ChessBoard::new`: a fresh board holding the position `START_FEN` loads, with a king for the side to move |
| `FenWriter.GapText` | src/chessboard/chessboard.rs:461-475 | a gap is written as nothing when it is 0, else as its single digit |
| `FenWriter.RankSplits` | src/chessboard/chessboard.rs:450-482 | within a rank, the piece section is the rank's own text followed by what comes after it |
| `FenWriter.EpText` | src/chessboard/chessboard.rs:508-511 | the en-passant field is never empty |
| `FenWriter.WriteCastleRights` | src/chessboard/chessboard.rs:488-505 | the castling field is `-` when no right is set, else the letters of the set rights in the order K, Q, k, q |
| `FenWriter.WriteRank` | src/chessboard/chessboard.rs:451-481 | one rank: gaps as digits, pieces as letters, then `/` above the first rank |
| `FenWriter.RankWritten` | src/chessboard/chessboard.rs:450-482 | after a rank is written only the ranks below remain |
| `FenWriter.WritePieces` | src/chessboard/chessboard.rs:448-482 | the piece section, eighth rank first and files A to H |
| `FenWriter.GetFen` | src/chessboard/chessboard.rs:447-518 | the piece section, the side to move, the castling field and the en-passant field, joined by single spaces |
| `FenRoundTrip.PartialMap` | src/chessboard/chessboard.rs:212-231 | the squares the piece section has filled so far |
| `FenRoundTrip.MailboxRoundTrip` | src/chessboard/chessboard.rs:212-231 | the piece text written for a mailbox places exactly that mailbox on an empty builder |
| `FenRoundTrip.PiecesRoundTrip` | src/chessboard/chessboard.rs:448-482 | the whole piece section of a board places its whole placement |
| `FenRoundTrip.CastleRoundTrip` | src/chessboard/chessboard.rs:242-254 | the castling field written from a set of rights grants exactly those rights |
| `FenRoundTrip.FieldsAreWords` | src/chessboard/chessboard.rs:514-517 | the four fields written for a board without an en-passant square split back apart |
| `FenRoundTrip.Stripped` | src/chessboard/chessboard.rs:386-396 | the board with pins, checkers and clock cleared |
| `FenRoundTrip.ConvertedIsStripped` | src/chessboard/chessboard.rs:386-396 | a builder holding a board's placement, turn, rights and hash converts to that board stripped |
| `FenRoundTrip.BuilderOfFields` | src/chessboard/chessboard.rs:204-262 | the loader's builder steps rebuild placement, turn and rights from the four written fields |
| `FenRoundTrip.AcceptedBuilder` | src/chessboard/chessboard.rs:297-403 | the conversion accepts such a builder when the board has one king per color, at most 18 pieces per side, rights passing its checks and the side not to move out of check |
| `FenRoundTrip.LoadOutcome` | src/chessboard/chessboard.rs:202-279 | four fields whose builder the conversion accepts load as that builder converted, with a zero clock |
| `FenRoundTrip.FenRoundTrip` | src/chessboard/chessboard.rs:202-518 | `from_fen(get_fen(b))` gives back `b` (no en-passant square) with a zero clock and recomputed pins and checkers |
| `Generator.IsSquareAttackedWithOccupancy` | src/chessboard/movegen/generator.rs:435-479 | true exactly when some piece of the attacker attacks the square, with the given occupancy blocking sliders |
| `Generator.IsSquareAttacked` | src/chessboard/movegen/generator.rs:430-432 | true exactly when the attacker attacks the square on the board's own occupancy |
| `Generator.EnPassantBoard` | src/chessboard/movegen/generator.rs:45-48 | the en-passant bitboard holds exactly the board's en-passant square, if any |
| `Generator.EntriesMeaning` | src/chessboard/movegen/generator.rs:156-180 | an entry of a piece loop is a visited square with the targets computed for it, and only pieces with targets are listed |
| `Generator.AnyAttackedMeaning` | src/chessboard/movegen/generator.rs:364-372 | the travel-square scan reports an attack exactly when some listed square is attacked by the opponent |
| `Generator.EntriesSize` | src/chessboard/movegen/generator.rs:156-180 | a piece loop pushes at most one entry per visited square, and exactly one when every visited piece has targets |
| `Generator.GeneratedFits` | src/chessboard/movegen/generator.rs:10-33 | everything `generate_moves` pushes fits in the model's move list capacity |
| `Generator.LoopSize` | src/chessboard/movegen/generator.rs:156-180 | one piece loop pushes at most 64 entries |
| `Generator.EntriesStep` | src/chessboard/movegen/generator.rs:156-180 | a loop's entries are the first scanned square's entry followed by the entries of the rest |
| `Generator.PushEntries` | src/chessboard/movegen/generator.rs:156-180 | the loop appends exactly the entries of the movers' squares, in scan order, to the move list |
| `Generator.GeneratePawnMoves` | src/chessboard/movegen/generator.rs:36-141 | appends each pawn's pushes, captures and en-passant capture, a pinned pawn kept to its pin line and, in check, to blocking or capturing the checker |
| `Generator.GenerateKnightMoves` | src/chessboard/movegen/generator.rs:144-181 | appends each unpinned knight's attacks minus friendly pieces (enemy pieces only in captures mode, the check line in check) |
| `Generator.GenerateBishopMoves` | src/chessboard/movegen/generator.rs:226-281 | appends each diagonal slider's attacks, cut to the pin axis when pinned and to the check line in check |
| `Generator.GenerateRookMoves` | src/chessboard/movegen/generator.rs:283-338 | appends each orthogonal slider's attacks, cut to the pin axis when pinned and to the check line in check |
| `Generator.TravelChecked` | src/chessboard/movegen/generator.rs:364-410 | the scan reports true exactly when one of the king's travel squares is attacked |
| `Generator.TryCastle` | src/chessboard/movegen/generator.rs:354-424 | a castle target is offered exactly when the right is held, the path is empty and no travel square is attacked |
| `Generator.GenerateCastleMoves` | src/chessboard/movegen/generator.rs:341-427 | no castles in check; otherwise the union of the two sides' castle targets |
| `Generator.StrikeStep` | src/chessboard/movegen/generator.rs:209-214 | testing one more step keeps the safe set equal to the tested steps the king may stand on |
| `Generator.RemoveAttacked` | src/chessboard/movegen/generator.rs:209-214 | the kept steps are exactly the steps on which the king, lifted off the board, is not attacked |
| `Generator.GenerateKingMoves` | src/chessboard/movegen/generator.rs:184-223 | appends the king's entry with its safe steps plus castles (castles only outside captures mode) |
| `Generator.KingMoveTargets` | src/chessboard/movegen/generator.rs:184-223 | the king's targets are its safe steps joined with its castle targets |
| `Generator.GenerateMoves` | src/chessboard/movegen/generator.rs:10-33 | the fresh list holds the king only under double check, otherwise pawns, knights, king, bishops and rooks in that order |
| `Generator.GenerateAll` | src/chessboard/movegen/generator.rs:20-32 | from an empty list, the five generators in order leave exactly their concatenated entries |
| `GeneratorRules.CheckMask` | src/chessboard/movegen/generator.rs:130-254 | in check every non-king target takes the checker or lies between it and the king, except a pawn's en-passant capture |
| `GeneratorRules.SingleCheckEntries` | src/chessboard/movegen/generator.rs:20-26 | in single check every generated entry but the king's answers the check (or is the en-passant square) |
| `GeneratorRules.DoubleCheckKingOnly` | src/chessboard/movegen/generator.rs:27-30 | in double check the list is the king's safe steps alone, with no castling |
| `GeneratorRules.NoCheckAllPieces` | src/chessboard/movegen/generator.rs:13-19 | out of check all five loops run, in order, without the check mask |
| `GeneratorRules.PinnedKnightsStay` | src/chessboard/movegen/generator.rs:153-158 | every knight entry is a free knight of the side to move and lists only knight jumps |
| `GeneratorRules.SliderTargetsRule` | src/chessboard/movegen/generator.rs:237-333 | a slider's targets are exactly the squares it sees, allowed by the mode and the check mask, and on the pin line when pinned |
| `GeneratorRules.PawnPushRule` | src/chessboard/movegen/generator.rs:67-89 | a pawn pushes one square onto an empty square, and two from its start rank when both are empty |
| `GeneratorRules.PinnedForwardPawn` | src/chessboard/movegen/generator.rs:60-92 | a pawn pinned on its king's file only pushes: no capture and no en passant |
| `GeneratorRules.PinnedAcrossPawn` | src/chessboard/movegen/generator.rs:69-95 | a pawn pinned on another line does not push, and captures only along the pin axis |
| `GeneratorRules.SeenFromTarget` | src/chessboard/movegen/generator.rs:113-122 | an enemy slider lies on a line seen from the king exactly when that slider sees the king |
| `GeneratorRules.EnPassantSafety` | src/chessboard/movegen/generator.rs:103-127 | the en-passant capture is kept exactly when no enemy slider attacks the king once both pawns have gone and the capturer stands on the target |
| `GeneratorRules.KingStepRule` | src/chessboard/movegen/generator.rs:195-214 | a king step is a neighbour without a friendly piece (an enemy piece in captures-only mode out of check) not attacked once the king leaves its square |
| `GeneratorRules.CapturesOnlyNoCastle` | src/chessboard/movegen/generator.rs:216-219 | in captures-only mode the king's targets are its safe steps alone |
| `GeneratorRules.PairAttacked` | src/chessboard/movegen/generator.rs:364-372 | the travel test over two squares fires exactly when one of them is attacked |
| `GeneratorRules.KingsideCastleRule` | src/chessboard/movegen/generator.rs:354-385 | the kingside target G1/G8 is offered exactly out of check with the right, F and G empty and not attacked |
| `GeneratorRules.QueensideCastleRule` | src/chessboard/movegen/generator.rs:387-424 | the queenside target C1/C8 is offered exactly out of check with the right, B, C and D empty and C, D not attacked |
| `ChecksAndPins.KingPatterns` | src/chessboard/chessboard.rs:746-764 | the patterns the checkers scan looks up from the king are each kind's attack pattern from the king |
| `ChecksAndPins.CheckersPerKind` | src/chessboard/chessboard.rs:737-765 | a square is a checker exactly when it holds an enemy piece of some kind whose pattern from the king reaches it |
| `ChecksAndPins.CheckersMeaning` | src/chessboard/chessboard.rs:737-765 | `calculate_checkers` finds exactly the enemy pieces that attack the king |
| `ChecksAndPins.PinnedFromLine` | src/chessboard/chessboard.rs:707-734 | a friendly piece first seen from the king, with an enemy slider of that line next behind it, is pinned |
| `ChecksAndPins.OnlyBlocker` | src/chessboard/chessboard.rs:731-733 | the connection between pinner and king holds no friendly piece but the pinned one |
| `ChecksAndPins.PinnerKind` | src/chessboard/chessboard.rs:717-728 | a pinner is an enemy slider revealed from the king when friendly pieces are lifted |
| `ChecksAndPins.LineFromPinned` | src/chessboard/chessboard.rs:707-734 | every pinned piece is the first piece on a line from its king whose next piece is an enemy slider of that line |
| `ChecksAndPins.PinnedMeaning` | src/chessboard/chessboard.rs:707-734 | `calculate_pinned` finds exactly the friendly pieces standing alone between their king and an enemy slider of that line |
| `MoveLists.Pushed` | src/movegen/movelist.rs:41-49 | `push` adds an entry exactly when it has targets, and nothing otherwise |
| `MoveLists.PromoteRank` | src/movegen/movelist.rs:100-103 | the promotion rank is the eighth for White and the first for Black |
| `MoveLists.EntryCountTargets` | src/movegen/movelist.rs:97-119 | an entry stands for one move per target, plus three more per pawn target on the promotion rank |
| `MoveLists.CountAppend` | src/movegen/movelist.rs:86-123 | the count of a concatenation is the sum of the counts |
| `MoveLists.CountStep` | src/movegen/movelist.rs:92-120 | counting one more entry adds that entry's moves |
| `MoveLists.MoveList.Contents` | src/movegen/movelist.rs:20-25 | the stored entries are the first `length` slots |
| `MoveLists.MoveList.constructor` | src/movegen/movelist.rs:29-34 | a new list is empty |
| `MoveLists.MoveList.IsEmpty` | src/movegen/movelist.rs:37-39 | true exactly when no entry is stored |
| `MoveLists.MoveList.Push` | src/movegen/movelist.rs:42-49 | the entry is appended when it has targets; the list is unchanged otherwise |
| `MoveLists.MoveList.Pop` | src/movegen/movelist.rs:52-62 | None exactly on an empty list; otherwise the last entry is removed and returned |
| `MoveLists.MoveList.Back` | src/movegen/movelist.rs:65-73 | None exactly on an empty list; otherwise the last entry |
| `MoveLists.MoveList.SetBackTargets` | src/movegen/movelist.rs:76-84 | the last entry's targets are replaced and nothing else changes; an empty list is left alone |
| `MoveLists.MoveList.CountMoves` | src/movegen/movelist.rs:87-123 | the loop's total is the count of the stored entries |
| `MoveListOverflow.EveryPieceListed` | src/chessboard/movegen/generator.rs:10-33 | when every piece has targets, the list has one entry per pawn, knight, bishop-loop and rook-loop piece, plus the king's |
| `MoveListOverflow.SourceListOverflows` | src/movegen/movelist.rs:23-49 | on the witness position `generate_moves` pushes more than eighteen entries |
| `MoveGens.Classify` | src/chessboard/movegen/movegen.rs:176-238 | the classified move keeps the requested start and end squares |
| `MoveGens.TakesMeaning` | src/chessboard/movegen/movegen.rs:204-233 | a move takes exactly when the end square holds a piece of the opponent |
| `MoveGens.ClassifyPawn` | src/chessboard/movegen/movegen.rs:188-237 | a pawn move is a double push from the start rank to the double rank, else en passant onto the en-passant square, else a promotion (capturing or not) onto the last rank, else a capture or quiet move |
| `MoveGens.ClassifyKing` | src/chessboard/movegen/movegen.rs:212-230 | a king move is a castle exactly from its home square to the G or C square of its rank, to that side |
| `MoveGens.ClassifyPiece` | src/chessboard/movegen/movegen.rs:232-237 | any other piece makes a capture onto an enemy piece and a quiet move otherwise |
| `MoveGens.ClassifyTarget` | src/chessboard/movegen/movegen.rs:155-180 | the promotion piece changes only a promotion's target |
| `MoveGens.ClassifiedApplicable` | src/chessboard/movegen/movegen.rs:173-174 | a classified move of a piece of the side to move can be played without an unwrap failing |
| `MoveGens.EntriesOwn` | src/chessboard/movegen/generator.rs:156-180 | every loop entry is a piece of the side to move with targets |
| `MoveGens.KingEntryOwn` | src/chessboard/movegen/generator.rs:184-223 | the king's entry is the king of the side to move with targets |
| `MoveGens.AllEntriesOwn` | src/chessboard/movegen/generator.rs:13-26 | every entry of the five loops is a piece of the side to move with targets |
| `MoveGens.GeneratedOwn` | src/chessboard/movegen/generator.rs:10-33 | every generated entry is a piece of the side to move with targets |
| `MoveGens.GeneratedLocated` | src/movegen/movelist.rs:95 | every generated entry names an occupied square, so `count_moves` never unwraps None |
| `MoveGens.ListedOwn` | src/chessboard/movegen/movegen.rs:185 | a listed start square holds a piece of the side to move |
| `MoveGens.ListsConcat` | src/chessboard/movegen/movegen.rs:90-93 | a pair is listed in a concatenation exactly when one part lists it |
| `MoveGens.ListsEntries` | src/chessboard/movegen/movegen.rs:90-93 | a loop lists a pair exactly when the end is among the start's computed targets |
| `MoveGens.ListsAllEntries` | src/chessboard/movegen/movegen.rs:90-93 | the legal list lists a pair exactly when one loop's part for the start holds the end |
| `MoveGens.SquareLegalMeaning` | src/chessboard/movegen/movegen.rs:90-93 | a square's legal destinations are exactly the ends the legal list pairs with it |
| `MoveGens.GenerateSquareLegal` | src/chessboard/movegen/movegen.rs:91 | the per-square computation equals the square's legal destinations |
| `MoveGens.KingMoveTargetsOf` | src/chessboard/movegen/generator.rs:184-223 | the king's part for a square is the king's targets when the square is the king's |
| `MoveGens.EveryLoopTargets` | src/chessboard/movegen/generator.rs:13-26 | the five loops' parts for a square, joined in order |
| `MoveGens.IsLegal` | src/chessboard/movegen/movegen.rs:90-93 | true exactly when the legal list pairs start with end |
| `MoveGens.Created` | src/chessboard/movegen/movegen.rs:151-166 | Ok exactly for a listed pair, the move then starting and ending on the requested squares from a piece of the side to move |
| `MoveGens.CreatePromotionMove` | src/chessboard/movegen/movegen.rs:151-166 | an error for an illegal pair, otherwise the classified move |
| `MoveGens.CreateMove` | src/chessboard/movegen/movegen.rs:101-107 | `create_promotion_move` with a queen as the promotion piece |
| `MoveGens.PromotionChar` | src/chessboard/movegen/movegen.rs:127-137 | exactly n, b, r, q are promotion letters, each naming the piece whose letter it is |
| `MoveGens.SquareAt` | src/defs/square.rs:115-144 | a two-byte slice names a square exactly when it is a file letter and a rank digit, and that square's name encodes to it |
| `MoveGens.PromotionByte` | src/chessboard/movegen/movegen.rs:127-137 | a promotion letter's piece writes back to the same byte |
| `MoveGens.ReadMoveText` | src/chessboard/movegen/movegen.rs:115-141 | a string reads exactly when it has the right byte shape, giving the squares its first four bytes name and the fifth byte's piece, a queen when it has not exactly five |
| `MoveGens.StrMove` | src/chessboard/movegen/movegen.rs:111-142 | InvalidMove exactly for a badly shaped string, IllegalMove exactly for a well-shaped unlisted pair |
| `MoveGens.CreateStrMove` | src/chessboard/movegen/movegen.rs:111-142 | the method's result is that outcome on the legal list |
| `MoveGens.MoveText` | src/chessboard/chessboard.rs:1083-1099 | a move's text is its start and end names, with the piece letter after them for a promotion |
| `MoveGens.TextBytes` | src/chessboard/chessboard.rs:1083-1099 | the text is ASCII, and its byte slices name the move's squares and promotion piece |
| `MoveGens.TextReads` | src/chessboard/movegen/movegen.rs:111-142 | reading a move's text gives back its squares and promotion piece without splitting a character |
| `MoveGens.AcuteTail` | src/chessboard/movegen/movegen.rs:116 | an ASCII string followed by `é` is two bytes longer than it has characters |
| `MoveGens.SixBytesReadAsFour` | src/chessboard/movegen/movegen.rs:116-126 | "e2e4é" has six bytes, so it reads as the plain move e2e4 |
| `MoveGens.SecondSliceSplitsAcute` | src/chessboard/movegen/movegen.rs:124 | in "e2eé" the second square's slice ends inside a character |
| `MoveGens.TextRoundTrip` | src/chessboard/movegen/movegen.rs:111-142 | a created move's text reads back, through `create_str_move`, as the same move |
| `MoveSequences.Yielded` | src/chessboard/movegen/movegen.rs:308-323 | a pending promotion status has yielded between one and three of its four moves |
| `MoveSequences.TargetMovesMeaning` | src/chessboard/movegen/movegen.rs:308-351 | a target yields its classified move, and for a promotion the knight, bishop, rook and queen promotions in that order |
| `MoveSequences.OwnLocated` | src/movegen/movelist.rs:95 | entries naming pieces of the side to move name occupied squares |
| `MoveSequences.EntryMovesMember` | src/chessboard/movegen/movegen.rs:301-341 | every move of an entry goes from its square to one of its targets and is the classified move with its promotion piece |
| `MoveSequences.TargetMovesMember` | src/chessboard/movegen/movegen.rs:326-341 | every move of a target is its classified move with the promotion piece it carries |
| `MoveSequences.ListMovesMember` | src/chessboard/movegen/movegen.rs:287-352 | every move the iterator yields is a listed pair's classified move, promoting only to knight, bishop, rook or queen |
| `MoveSequences.GeneratedTextRoundTrip` | src/chessboard/movegen/movegen.rs:111-142 | every yielded move's text is read back by `create_str_move` as that move |
| `MoveSequences.TargetMovesCount` | src/movegen/movelist.rs:97-119 | a target yields four moves when a pawn reaches the promotion rank and one otherwise |
| `MoveSequences.EntryCountSplit` | src/movegen/movelist.rs:97-119 | the count of an entry is its lowest target's moves plus the count of the rest |
| `MoveSequences.EntryMovesCount` | src/movegen/movelist.rs:87-123 | an entry yields as many moves as `count_moves` counts for it |
| `MoveSequences.ListMovesCount` | src/movegen/movelist.rs:87-123 | a list yields as many moves as `count_moves` counts for it |
| `MoveSequences.EntryMovesNonEmpty` | src/movegen/movelist.rs:41-49 | an entry with targets yields at least one move |
| `MoveSequences.ListMovesEmpty` | src/chessboard/movegen/movegen.rs:69-73 | a list of entries with targets yields no move exactly when it is empty |
| `MoveSequences.Lowered` | src/chessboard/movegen/movegen.rs:320-348 | removing the top entry's lowest target keeps the length and every other entry |
| `MoveSequences.LoweredLocated` | src/chessboard/movegen/movegen.rs:320-348 | lowering keeps the squares and keeps every entry below the top non-empty |
| `MoveSequences.PromotionShape` | src/chessboard/movegen/movegen.rs:326-335 | a promotion is a capturing promotion exactly when an enemy stands on its end square |
| `MoveSequences.ListLowered` | src/chessboard/movegen/movegen.rs:301-351 | a list's moves are the top entry's lowest target's moves followed by those of the lowered list |
| `MoveSequences.PendingAdvance` | src/chessboard/movegen/movegen.rs:309-323 | a pending status steps bishop, rook, queen, and after the queen the target leaves the list |
| `MoveSequences.PromotionYield` | src/chessboard/movegen/movegen.rs:308-336 | the promotion branch yields exactly the next move to come and leaves the rest |
| `MoveSequences.TargetAdvance` | src/chessboard/movegen/movegen.rs:338-351 | out of a promotion the top entry's lowest target yields its classified move |
| `MoveSequences.PromotionStarts` | src/chessboard/movegen/movegen.rs:344-345 | a classified promotion starts the status at the bishop and keeps the target |
| `MoveSequences.TargetLowers` | src/chessboard/movegen/movegen.rs:346-349 | any other classified move removes its target from the top entry |
| `MoveSequences.PendingUnrolled` | src/chessboard/movegen/movegen.rs:308-345 | a freshly pending promotion is followed by the bishop, rook and queen promotions, then the lowered list's moves |
| `MoveSequences.TargetYield` | src/chessboard/movegen/movegen.rs:338-351 | the classifying branch yields exactly the next move to come and leaves the rest |
| `MoveSequences.PopAdvance` | src/chessboard/movegen/movegen.rs:293-298 | popping an emptied top entry leaves the moves still to come unchanged |
| `MoveSequences.PendingCount` | src/chessboard/movegen/movegen.rs:354-357 | with a promotion pending, the moves still to come plus those already yielded of it are all the list's moves |
| `MoveIterators.MoveGen.constructor` | src/chessboard/movegen/movegen.rs:39-59 | the iterator holds the generated list for the board with no pending promotion, and is to yield every move of that list |
| `MoveIterators.MoveGen.IsEmpty` | src/chessboard/movegen/movegen.rs:71-73 | when the list is empty no move is left |
| `MoveIterators.MoveGen.IsEmptyExact` | src/chessboard/movegen/movegen.rs:71-73 | on a list whose entries all have targets, empty exactly when no move is left |
| `MoveIterators.MoveGen.CountMoves` | src/chessboard/movegen/movegen.rs:84-86 | the count is `count_moves` of the remaining list for the board |
| `MoveIterators.MoveGen.SizeHint` | src/chessboard/movegen/movegen.rs:354-357 | both bounds are that count |
| `MoveIterators.MoveGen.SizeHintSettled` | src/chessboard/movegen/movegen.rs:354-357 | with no pending promotion the count equals the number of moves still to come |
| `MoveIterators.MoveGen.SizeHintOvercounts` | src/chessboard/movegen/movegen.rs:354-360 | mid-promotion the count exceeds the moves still to come by the promotions already yielded |
| `MoveIterators.MoveGen.ExactSizeHint` | src/chessboard/movegen/movegen.rs:354-360 | the corrected hint is exactly the number of moves still to come |
| `MoveIterators.MoveGen.YieldPromotion` | src/chessboard/movegen/movegen.rs:308-336 | yields the first move still to come and drops it |
| `MoveIterators.MoveGen.YieldTarget` | src/chessboard/movegen/movegen.rs:338-351 | yields the first move still to come and drops it |
| `MoveIterators.MoveGen.Next` | src/chessboard/movegen/movegen.rs:287-352 | None exactly when no move is left; otherwise the first move still to come, which is dropped |
| `MoveIterators.MoveGen.ToVec` | src/chessboard/movegen/movegen.rs:63-67 | the vector is every move the iterator still had to yield, in order |
| `MoveIterators.AppendNext` | src/chessboard/movegen/movegen.rs:65 | moving the next move to the collected ones keeps their concatenation |
| `MoveIterators.CountLegalMoves` | src/chessboard/movegen/movegen.rs:77-80 | `count_moves` of the legal list, which is the number of moves a legal iterator yields |
| `GameTrees.WalkDeep` | src/chessboard/movegen/movegen.rs:269-279 | from depth 2 on, the walk is the sum over the board's moves of the walks one ply less deep |
| `GameTrees.WalkOne` | src/chessboard/movegen/movegen.rs:265-267 | at depth 1 the walk is the board's move count |
| `GameTrees.WalkableChildren` | src/chessboard/movegen/movegen.rs:272-277 | a walk that can be taken from depth 2 goes on with every move one ply less deep |
| `GameTrees.LeavesSumOne` | src/chessboard/movegen/movegen.rs:265-267 | one ply from the end every move is one leaf |
| `GameTrees.WalkCountsLeaves` | src/chessboard/movegen/movegen.rs:261-280 | when the count equals the number of moves on every board of the tree, the walk counts the tree's leaves |
| `GameTrees.SumsCountLeaves` | src/chessboard/movegen/movegen.rs:272-277 | the same below each of a list of moves |
| `Perfts.LegalMoves` | src/chessboard/movegen/movegen.rs:39-67 | the legal moves of a board are the moves its legal list yields, in order |
| `Perfts.LegalCount` | src/chessboard/movegen/movegen.rs:77-80 | `count_legal_moves` is the number of legal moves on boards reached by play |
| `Perfts.PerftCountsLeaves` | src/chessboard/movegen/movegen.rs:261-280 | `perft` counts exactly the leaves of the legal move tree, the depth-one shortcut included |
| `Perfts.PerftOne` | src/chessboard/movegen/movegen.rs:265-267 | `perft` one ply deep is the number of legal moves |
| `Perfts.PlayableChildren` | src/chessboard/movegen/movegen.rs:272-277 | from depth 2, each legal move of a walkable board leads to a walkable board |
| `Perfts.FirstChild` | src/chessboard/movegen/movegen.rs:272-277 | the first move can be made, and the sum splits into its child's perft and the rest |
| `Perfts.Perft` | src/chessboard/movegen/movegen.rs:261-280 | the method returns the perft value of the board to that depth |
| `Perfts.PerftCount` | src/chessboard/movegen/movegen.rs:265-267 | at depth 1 the method returns `count_legal_moves` |
| `Perfts.PerftDeep` | src/chessboard/movegen/movegen.rs:269-279 | from depth 2 the method returns the sum over the legal moves of the children's perft |
| `Perfts.PerftChildren` | src/chessboard/movegen/movegen.rs:272-277 | the loop adds up the children's perft over every move the iterator still yields, and exhausts it |
| `ChessGames.Tally` | src/chess_game.rs:36 | the tally holds exactly the footprints seen, each with the number of times it was seen |
| `ChessGames.Recorded` | src/chess_game.rs:81-98 | after a move the table holds the new footprint, plus the old keys only after a quiet move |
| `ChessGames.TallyAppend` | src/chess_game.rs:87-98 | tallying one more footprint raises its count by one or enters it at one |
| `ChessGames.RecordedTally` | src/chess_game.rs:81-98 | the table stays the tally of the footprints since the last move that was not quiet |
| `ChessGames.RepeatCount` | src/chess_game.rs:87-95 | the count checked against three is positive |
| `ChessGames.RepeatCountMeaning` | src/chess_game.rs:87-95 | that count is how often the new footprint occurs since the last move that was not quiet |
| `ChessGames.SubsetSameSize` | src/chess_game.rs:123-137 | a subset as large as its superset is that superset |
| `ChessGames.OnePiece` | src/chess_game.rs:123-124 | a one-piece side with one king is a lone king |
| `ChessGames.TwoPieces` | src/chess_game.rs:128-138 | a two-piece side with one king is that king plus one more piece |
| `ChessGames.SingleSquareColor` | src/chess_game.rs:142-161 | one square overlaps the white squares exactly when it is white, the black ones when it is black |
| `ChessGames.BishopSquare` | src/chess_game.rs:139-161 | a side's bishops overlap a square colour exactly when it has a bishop on that colour |
| `ChessGames.BishopsBranch` | src/chess_game.rs:138-167 | the nested bishop test passes exactly when both sides have a bishop on squares of one colour |
| `ChessGames.MinorBranch` | src/chess_game.rs:128-175 | the bishop-or-knight test is "the extra piece is a bishop or a knight" |
| `ChessGames.SideSizes` | src/chess_game.rs:123-177 | a lone king is one piece, a king with one more piece is two |
| `ChessGames.MinorCase` | src/chess_game.rs:123-176 | lone king against king and one piece is dead exactly when that piece is a bishop or knight |
| `ChessGames.BishopsCase` | src/chess_game.rs:137-167 | two pieces a side is dead exactly when the bishop test passes |
| `ChessGames.MaterialDrawMeaning` | src/chess_game.rs:123-177 | the insufficient-material test holds exactly for K v K, K+B or K+N v K, and K+B v K+B with bishops on one colour |
| `ChessGames.Outcome` | src/chess_game.rs:87-177 | insufficient material wins over the fifty-move rule, which wins over mate and stalemate, which win over repetition, which wins over the prior result |
| `ChessGames.FiftyMovesOverridesMate` | src/chess_game.rs:102-121 | a mate given at 50 half-moves or more is recorded as a fifty-move draw |
| `ChessGames.LegalMoveList` | src/chess_game.rs:53-100 | the list is the board's legal moves in iterator order |
| `ChessGames.PlayReady` | src/chess_game.rs:78 | a board reached by a move that can be made can be asked for moves again |
| `ChessGames.Repetition` | src/chess_game.rs:81-98 | the new table is the recorded one, and the result is a repetition draw exactly on a third occurrence |
| `ChessGames.EndRules` | src/chess_game.rs:102-177 | the end-of-game rules leave exactly the outcome `Outcome` states |
| `ChessGames.ChessGame.constructor` | src/chess_game.rs:51-67 | the game on a board holds its legal moves, its footprint counted once, no moves and no result |
| `ChessGames.ChessGame.Moves` | src/chess_game.rs:71-73 | the legal moves of the current board |
| `ChessGames.ChessGame.MakeMove` | src/chess_game.rs:77-178 | the board plays the move, the move is recorded, the table is updated and the result is the stated outcome |
| `ChessGames.ChessGame.Record` | src/chess_game.rs:79-177 | the bookkeeping after the board has moved: moves, table, legal moves and result |
| `ChessGames.ChessGame.Store` | src/chess_game.rs:79-177 | sets the bookkeeping fields and leaves the board |
| `ChessGames.ChessGame.Result` | src/chess_game.rs:182-184 | the stored result |
| `ChessGames.ChessGame.IsLegalMove` | src/chess_game.rs:188-190 | true exactly when the legal list pairs start with end |
| `ChessGames.ChessGame.CreateMove` | src/chess_game.rs:196-198 | the board's `create_move` outcome |
| `ChessGames.ChessGame.CreatePromoteMove` | src/chess_game.rs:204-211 | the board's `create_promotion_move` outcome |
| `ChessGames.ChessGame.CreateStrMove` | src/chess_game.rs:215-217 | the board's `create_str_move` outcome |
| `ChessGames.ChessGame.Board` | src/chess_game.rs:221-223 | the game's board |
| `ChessGames.NewGame` | src/chess_game.rs:51-67 | a fresh game on the board loaded from the start FEN, with its footprint counted once, no moves and no result |
| `Utf8.EncodeChar` | src/chessboard/movegen/movegen.rs:116 | a character encodes to one to four bytes |
| `Utf8.Encode` | src/chessboard/movegen/movegen.rs:116 | a string has at least as many bytes as characters |
| `Utf8.AsciiEncoding` | src/chessboard/movegen/movegen.rs:116 | a string has as many bytes as characters exactly when it is ASCII |
| `Utf8.EncodeAppend` | src/chessboard/movegen/movegen.rs:121-124 | encoding a concatenation concatenates the encodings |

## Left out

- Bitboards are sets of squares, not 64-bit words. The u64 value is recovered by `ToU64` where arithmetic on it matters (magic keys, square-colour constants). Word-level bit tricks (`b_scan_forward` by trailing zeros, `popcnt` by hardware) are stated by their meaning.
- Zobrist: a hash is the set of keys XOR-ed in an odd number of times. The random 64-bit constants are not modelled, so two different key sets never compare equal here, whereas two u64 XORs could collide.
- Zobrist key generation, `get_magic_candidate` and the random number generator: magic candidates are an input sequence to `TableGenMagics.FindMagic`, and the key constants are left abstract.
- The half-move clock is a u8. `make_move` increments it modulo 256, as a release build does; a debug build panics on the overflow instead.
- The FEN loader's u8 square counter wraps modulo 256 in the same way, as a release build does.
- The u16 combination counter of `Occupancies` wraps for masks of 16 squares or more. The model states the wrap (`OccupancyEnum.Pow2Wraps`) and enumerates only masks below 16 squares, which covers every slider mask.
- The table builders' file output (src/table_gen/mod.rs, src/build.rs), `lazy_static` initialisation, and the cargo feature choosing between ray casting and magic lookup: the tables are values, and `ChessboardTables.Build` is either a loaded magic table or ray casting.
- `Display` for boards, bitboards and the remaining types, `Hash`, serde, `PartialEq` on boards and the footprint's hashing. `Display` for squares and moves is modelled (`MoveGens.MoveText`).
- `ChessBoard::from_str_moves` and `MoveGen::debug_perft`: they print or are thin loops over modelled operations.
- The terminal-game example and the benchmarks.
- The repository holds two revisions of the board builder. The model follows the three-argument `piece(square, kind, color)` with a piece map of (kind, colour). `from_fen` calls a two-argument `Piece::from_char` from the other revision; the model reads the kind from the letter and the colour from its case.
- `generate_square_legal` is called by `is_legal` but is not part of this model. `MoveGens.SquareLegal` defines it as the targets the legal move list holds for the square, and `MoveGens.GenerateSquareLegal` computes it loop by loop.
- The move list has room for 257 entries (`MoveLists.CAPACITY`) instead of the source's 18 (see Findings).
- ChessBoards.ChessBoard.MakeMove: requires `CanMake`, that the move's unwraps succeed and the side to move keeps a king. The source calls this undefined behaviour and does not check it.
- ChessGames.ChessGame.MakeMove: requires `CanMake` for the same reason.
- Fen.NewBoard: requires that `START_FEN` loads. The source unwraps it; the proof that the starting position loads is not part of this model.
- ChessGames.NewGame: requires the same.
- MoveGens.CreateStrMove: requires that the string is not cut inside a character by the square slices; the source panics there (`MoveGens.SecondSliceSplitsAcute`).
- ChessGames.ChessGame.CreateStrMove: requires the same.
- FenRoundTrip.FenRoundTrip: stated for boards without an en-passant square, because the loader drops the square it read (see Findings).
- MoveIterators.MoveGen.ExactSizeHint: requires the en-passant square to be off the promotion rank of the side to move, as on every board reached by play; otherwise an en-passant target on that rank is counted four times.
- MoveIterators.MoveGen.SizeHintSettled: requires the same.
- Perfts.PerftCountsLeaves: requires the same on every board of the tree.
- Perfts.PerftOne: requires the same.
- Perfts.Perft: requires every board on the walk to have a king for the side to move and every move made to pass `CanMake`; the source unwraps there.
- Perfts.PerftChildren: depth is unbounded and the node count is unbounded, where the source uses a u8 depth and u64 sums.
- ChessGames.Repetition: the repetition counts are unbounded naturals, where the source keeps a u8 that would overflow after 255 repeats of one footprint without a non-quiet move.
- Concurrency, allocation failure and the `unsafe` unchecked reads and writes beyond the move list's overflow: not modelled.

## Findings

| source | as written | input that shows it | evidently intended | confidence | as-written member | corrected member |
|---|---|---|---|---|---|---|
| src/chessboard/chessboard.rs:364-384 | the fourth castling block tests the Black kingside right again where the Black queenside right is meant, with the A8 rook test | only the Black queenside right, with e8 and a8 empty, is accepted; only the Black kingside right, with king e8, rook h8 and a8 empty, is rejected | each right is accepted exactly when its king and its own rook stand at home | not executed | `BuilderConversion.CastleChecksAsWrittenWrong` | `BuilderConversion.CastleChecksMeaning` |
| src/chessboard/chessboard.rs:316-340,386-396 | the en-passant square is validated, then the board is built with none, while its hash keeps the key of the validated square | any FEN with an en-passant field, such as the position after 1. e4 with "e3" | the validated square is kept and the hash matches the board | not executed | `BuilderConversion.ConvertedDropsEp` | `BuilderConversion.ConvertedKeepingEpSound` |
| src/chessboard/movegen/movegen.rs:354-360 | `size_hint` counts the pending promotion's four moves in full after some of them were yielded, so the exact-size promise is broken | the iterator after yielding the knight promotion of a pawn on the seventh rank | the number of moves still to come | not executed | `MoveIterators.MoveGen.SizeHintOvercounts` | `MoveIterators.MoveGen.ExactSizeHint` |
| src/movegen/movelist.rs:23,41-49 | the list holds 18 entries and `push` writes unchecked; queens are pushed by both the bishop and the rook loop, so a sixteen-piece side can need more | White king a1, pawns b2-f2, knights b1 and g1, bishops c4 and f4, rooks a4 and h4, queens b6, d6, f6, h6; Black king e8 | room for every entry the generator pushes | not executed | `MoveListOverflow.SourceListOverflows` | `Generator.GeneratedFits` |
