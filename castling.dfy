// Castling rights (src/chessboard/castling_rights.rs) and the castle side
// (src/defs/mod.rs): a byte holding four flags, one per side and color.
// The Rust struct is a `Copy` value kept inline in the board and the builder;
// its `&mut self` setters are modelled as functions returning the new value,
// which the board's methods assign back to their field.
module Castling {
  import opened Colors

  /// The direction a king can castle.
  datatype CastleSide = Kingside | Queenside

  const WHITE_KING: bv8 := 1
  const WHITE_QUEEN: bv8 := 2
  const BLACK_KING: bv8 := 4
  const BLACK_QUEEN: bv8 := 8

  /// The stored byte. Only the four low bits are ever set.
  datatype CastlingRights = CastlingRights(bits: bv8)

  /// The flag of one right.
  function Flag(side: CastleSide, color: Color): (f: bv8)
    ensures f == 1 || f == 2 || f == 4 || f == 8
  {
    match (side, color)
    case (Kingside, Black) => BLACK_KING
    case (Kingside, White) => WHITE_KING
    case (Queenside, Black) => BLACK_QUEEN
    case (Queenside, White) => WHITE_QUEEN
  }

  /// Rights built only from the four flags.
  predicate Valid(r: CastlingRights)
  {
    r.bits < 16
  }

  /// `new`: no rights.
  function New(): (r: CastlingRights)
    ensures Valid(r) && IsNoneSet(r)
    ensures forall side, color :: !IsSet(r, side, color)
  {
    CastlingRights(0)
  }

  /// `is_none_set`: the byte is zero.
  predicate IsNoneSet(r: CastlingRights)
  {
    r.bits == 0
  }

  /// `is_set`: the flag of (side, color) is on.
  predicate IsSet(r: CastlingRights, side: CastleSide, color: Color)
  {
    match (side, color)
    case (Kingside, Black) => r.bits & BLACK_KING != 0
    case (Kingside, White) => r.bits & WHITE_KING != 0
    case (Queenside, Black) => r.bits & BLACK_QUEEN != 0
    case (Queenside, White) => r.bits & WHITE_QUEEN != 0
  }

  /// `set`: turns one flag on and leaves the other three as they were.
  function Set(r: CastlingRights, side: CastleSide, color: Color): (r': CastlingRights)
    ensures IsSet(r', side, color)
    ensures forall s, c :: (s, c) != (side, color) ==> IsSet(r', s, c) == IsSet(r, s, c)
    ensures Valid(r) ==> Valid(r')
  {
    match (side, color)
    case (Kingside, Black) => CastlingRights(r.bits | BLACK_KING)
    case (Kingside, White) => CastlingRights(r.bits | WHITE_KING)
    case (Queenside, Black) => CastlingRights(r.bits | BLACK_QUEEN)
    case (Queenside, White) => CastlingRights(r.bits | WHITE_QUEEN)
  }

  /// `unset`: turns one flag off and leaves the other three as they were.
  function Unset(r: CastlingRights, side: CastleSide, color: Color): (r': CastlingRights)
    ensures !IsSet(r', side, color)
    ensures forall s, c :: (s, c) != (side, color) ==> IsSet(r', s, c) == IsSet(r, s, c)
    ensures Valid(r) ==> Valid(r')
  {
    match (side, color)
    case (Kingside, Black) => CastlingRights(r.bits & !BLACK_KING)
    case (Kingside, White) => CastlingRights(r.bits & !WHITE_KING)
    case (Queenside, Black) => CastlingRights(r.bits & !BLACK_QUEEN)
    case (Queenside, White) => CastlingRights(r.bits & !WHITE_QUEEN)
  }

  /// `unset_color`: clears both rights of one color; the other color keeps
  /// its rights.
  function UnsetColor(r: CastlingRights, color: Color): (r': CastlingRights)
    ensures !IsSet(r', Kingside, color) && !IsSet(r', Queenside, color)
    ensures forall s :: IsSet(r', s, Opposite(color)) == IsSet(r, s, Opposite(color))
    ensures Valid(r) ==> Valid(r')
  {
    match color
    case White => CastlingRights(r.bits & !(WHITE_KING | WHITE_QUEEN))
    case Black => CastlingRights(r.bits & !(BLACK_KING | BLACK_QUEEN))
  }

  /// Two valid rights values with the same four answers are the same byte.
  lemma Extensional(a: CastlingRights, b: CastlingRights)
    requires Valid(a) && Valid(b)
    requires forall s, c :: IsSet(a, s, c) == IsSet(b, s, c)
    ensures a == b
  {
    assert IsSet(a, Kingside, White) == IsSet(b, Kingside, White);
    assert IsSet(a, Queenside, White) == IsSet(b, Queenside, White);
    assert IsSet(a, Kingside, Black) == IsSet(b, Kingside, Black);
    assert IsSet(a, Queenside, Black) == IsSet(b, Queenside, Black);
  }

  /// On valid rights, `is_none_set` holds exactly when no right is set.
  lemma NoneSetIff(r: CastlingRights)
    requires Valid(r)
    ensures IsNoneSet(r) <==> forall s, c :: !IsSet(r, s, c)
  {
    if forall s, c :: !IsSet(r, s, c) {
      Extensional(r, New());
    }
  }

  /// Setting a right twice is the same as setting it once.
  lemma SetIdempotent(r: CastlingRights, side: CastleSide, color: Color)
    requires Valid(r)
    ensures Set(Set(r, side, color), side, color) == Set(r, side, color)
  {
    Extensional(Set(Set(r, side, color), side, color), Set(r, side, color));
  }

  /// Unsetting a right twice is the same as unsetting it once.
  lemma UnsetIdempotent(r: CastlingRights, side: CastleSide, color: Color)
    requires Valid(r)
    ensures Unset(Unset(r, side, color), side, color) == Unset(r, side, color)
  {
    Extensional(Unset(Unset(r, side, color), side, color), Unset(r, side, color));
  }

  /// Clearing a color is unsetting its two rights one after the other, as
  /// the board's `unset_color_rights` does.
  lemma UnsetColorBoth(r: CastlingRights, color: Color)
    requires Valid(r)
    ensures UnsetColor(r, color) == Unset(Unset(r, Kingside, color), Queenside, color)
  {
    var a := UnsetColor(r, color);
    var b := Unset(Unset(r, Kingside, color), Queenside, color);
    forall s, c ensures IsSet(a, s, c) == IsSet(b, s, c) {
      if c != color {
        assert c == Opposite(color);
      }
    }
    Extensional(a, b);
  }
}
