// The two sides of a chess game (src/defs/color.rs).
module Colors {
  datatype Color = White | Black

  /// Both colors in index order.
  const COLORS: seq<Color> := [White, Black]

  /// FEN letter of a color: 'w' for White, 'b' for Black.
  function ToChar(c: Color): (ch: char)
    ensures ch == 'w' || ch == 'b'
    ensures (ch == 'w') <==> (c == White)
  {
    match c
    case White => 'w'
    case Black => 'b'
  }

  /// Position of a color in the per-color arrays.
  function Index(c: Color): (i: nat)
    ensures i < 2 && COLORS[i] == c
  {
    match c
    case White => 0
    case Black => 1
  }

  /// `!color`: the other side.
  function Opposite(c: Color): (o: Color)
    ensures o != c
  {
    match c
    case White => Black
    case Black => White
  }

  lemma OppositeInvolutive(c: Color)
    ensures Opposite(Opposite(c)) == c
  {
  }
}
