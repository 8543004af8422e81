// The Zobrist hash of a board (src/chessboard/zobrist.rs; src/zobrist.rs is
// the same code). Each update XORs one constant of the random key tables
// into a 64-bit word. The tables are random numbers fixed when the crate is
// built, so the model keeps the hash as the set of keys XOR-ed in an odd
// number of times: XOR-ing a key is then toggling its membership, and two
// hashes that hold the same set are equal whatever the constants are.
module Zobrist {
  import opened Wrappers
  import opened Squares
  import opened Colors
  import opened Pieces
  import opened Castling
  import opened BitBoards
  import Files

  /// One entry of the key tables: `PIECE_ZOBRIST[color][piece][square]`,
  /// `CASTLE_RIGHTS_ZOBRIST[side][color]`, `EN_PASSANT_ZOBRIST[file]` and
  /// `TURN_ZOBRIST`.
  datatype ZobristKey =
    | PieceKey(color: Color, kind: PieceType, square: Square)
    | CastleKey(side: CastleSide, color: Color)
    | EpKey(file: Files.File)
    | TurnKey

  /// The hash: the keys currently XOR-ed into the word.
  datatype ZobristHash = ZobristHash(toggled: set<ZobristKey>)

  /// `new`: the hash of an empty board, the zero word.
  function New(): (h: ZobristHash)
    ensures forall k :: k !in h.toggled
  {
    ZobristHash({})
  }

  /// The keys whose membership differs between h and r are exactly k:
  /// r is h with k XOR-ed in.
  ghost predicate FlipsOnly(h: ZobristHash, r: ZobristHash, k: ZobristKey)
  {
    forall k' :: (k' in r.toggled <==> k' in h.toggled) <==> k' != k
  }

  /// XOR-ing one key in: that key's membership flips, no other key's does.
  function Toggle(h: ZobristHash, k: ZobristKey): (r: ZobristHash)
    ensures FlipsOnly(h, r, k)
  {
    if k in h.toggled then ZobristHash(h.toggled - {k}) else ZobristHash(h.toggled + {k})
  }

  /// `piece`: adds or removes a piece on a square.
  function Piece(h: ZobristHash, square: Square, kind: PieceType, color: Color): (r: ZobristHash)
    ensures FlipsOnly(h, r, PieceKey(color, kind, square))
  {
    Toggle(h, PieceKey(color, kind, square))
  }

  /// `castle_right`: adds or removes one castling right.
  function CastleRight(h: ZobristHash, side: CastleSide, color: Color): (r: ZobristHash)
    ensures FlipsOnly(h, r, CastleKey(side, color))
  {
    Toggle(h, CastleKey(side, color))
  }

  /// `ep`: adds or removes the en-passant file; only the square's file
  /// selects the key.
  function Ep(h: ZobristHash, square: Square): (r: ZobristHash)
    ensures FlipsOnly(h, r, EpKey(File(square)))
  {
    Toggle(h, EpKey(File(square)))
  }

  /// `toggle_turn`: flips the side-to-move key.
  function ToggleTurn(h: ZobristHash): (r: ZobristHash)
    ensures FlipsOnly(h, r, TurnKey)
  {
    Toggle(h, TurnKey)
  }

  /// XOR-ing the same key twice restores the hash.
  lemma ToggleInvolution(h: ZobristHash, k: ZobristKey)
    ensures Toggle(Toggle(h, k), k) == h
  {
    var r := Toggle(Toggle(h, k), k);
    assert r.toggled == h.toggled by {
      forall k' ensures k' in r.toggled <==> k' in h.toggled {
      }
    }
  }

  /// Any two updates commute, so the final hash does not depend on the
  /// order in which keys are XOR-ed in.
  lemma ToggleCommutes(h: ZobristHash, a: ZobristKey, b: ZobristKey)
    ensures Toggle(Toggle(h, a), b) == Toggle(Toggle(h, b), a)
  {
    var l := Toggle(Toggle(h, a), b);
    var r := Toggle(Toggle(h, b), a);
    assert l.toggled == r.toggled by {
      forall k' ensures k' in l.toggled <==> k' in r.toggled {
      }
    }
  }

  /// `piece`, `castle_right`, `ep` and `toggle_turn` applied twice with the
  /// same arguments are the identity.
  lemma UpdatesAreInvolutions(h: ZobristHash, square: Square, kind: PieceType, color: Color, side: CastleSide)
    ensures Piece(Piece(h, square, kind, color), square, kind, color) == h
    ensures CastleRight(CastleRight(h, side, color), side, color) == h
    ensures Ep(Ep(h, square), square) == h
    ensures ToggleTurn(ToggleTurn(h)) == h
  {
    ToggleInvolution(h, PieceKey(color, kind, square));
    ToggleInvolution(h, CastleKey(side, color));
    ToggleInvolution(h, EpKey(File(square)));
    ToggleInvolution(h, TurnKey);
  }

  /// Two en-passant squares on the same file give the same update.
  lemma EpSameFile(h: ZobristHash, s1: Square, s2: Square)
    requires FileIndex(s1) == FileIndex(s2)
    ensures Ep(h, s1) == Ep(h, s2)
  {
    Files.IndexRoundTrip(File(s1));
    Files.IndexRoundTrip(File(s2));
  }

  /// Whether a key belongs in the hash of a position with the given piece
  /// and color boards, side to move, rights and en-passant square.
  ghost predicate Present(k: ZobristKey, pieces: seq<BitBoard>, colors: seq<BitBoard>,
                          blackToMove: bool, rights: CastlingRights, ep: Option<Square>)
    requires |pieces| == 6 && |colors| == 2
  {
    match k
    case PieceKey(c, kind, s) => s in pieces[Pieces.Index(kind)] && s in colors[Colors.Index(c)]
    case CastleKey(side, c) => IsSet(rights, side, c)
    case EpKey(f) => ep.Some? && File(ep.value) == f
    case TurnKey => blackToMove
  }

  /// The hash is the Zobrist hash of that position: it holds exactly the
  /// keys the position calls for.
  ghost predicate Describes(h: ZobristHash, pieces: seq<BitBoard>, colors: seq<BitBoard>,
                            blackToMove: bool, rights: CastlingRights, ep: Option<Square>)
    requires |pieces| == 6 && |colors| == 2
  {
    forall k :: k in h.toggled <==> Present(k, pieces, colors, blackToMove, rights, ep)
  }
}
