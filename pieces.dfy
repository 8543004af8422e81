// The six kinds of chess pieces (src/defs/piece.rs).
module Pieces {
  import opened Wrappers
  import opened Colors

  datatype PieceType = Pawn | Knight | Bishop | Rook | Queen | King

  /// All piece kinds in index order.
  const PIECE_TYPES: seq<PieceType> := [Pawn, Knight, Bishop, Rook, Queen, King]

  /// A piece kind together with its owner, as stored in the builder's square map.
  datatype ColoredPiece = ColoredPiece(kind: PieceType, color: Color)

  /// ASCII lower-casing of a letter; other characters are unchanged.
  function Lower(c: char): char
  {
    if 'A' <= c <= 'Z' then (c as int - 'A' as int + 'a' as int) as char else c
  }

  /// The lower-case letter of a piece kind.
  function ToChar(p: PieceType): (c: char)
    ensures Lower(c) == c && c in "pnbrqk"
  {
    match p
    case Pawn => 'p'
    case Knight => 'n'
    case Bishop => 'b'
    case Rook => 'r'
    case Queen => 'q'
    case King => 'k'
  }

  /// Parses a piece letter in either case; any other character gives None.
  function FromChar(c: char): (r: Option<PieceType>)
    ensures r.Some? <==> Lower(c) in "pnbrqk"
  {
    match c
    case 'p' | 'P' => Some(Pawn)
    case 'n' | 'N' => Some(Knight)
    case 'b' | 'B' => Some(Bishop)
    case 'r' | 'R' => Some(Rook)
    case 'q' | 'Q' => Some(Queen)
    case 'k' | 'K' => Some(King)
    case _ => None
  }

  /// Position of a piece kind in the per-piece arrays.
  function Index(p: PieceType): (i: nat)
    ensures i < 6 && PIECE_TYPES[i] == p
  {
    match p
    case Pawn => 0
    case Knight => 1
    case Bishop => 2
    case Rook => 3
    case Queen => 4
    case King => 5
  }

  /// Printing a kind and parsing the letter back gives the kind again.
  lemma CharRoundTrip(p: PieceType)
    ensures FromChar(ToChar(p)) == Some(p)
  {
  }

  /// A parsed letter prints back as its lower-case form.
  lemma FromCharToChar(c: char)
    ensures FromChar(c).Some? ==> ToChar(FromChar(c).value) == Lower(c)
  {
  }
}
