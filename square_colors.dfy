// The checkerboard bit patterns of the square colours, computed on square
// indices alone: the light and dark patterns read as u64 values.
module CheckerPatterns {
  /// Whether square index i has the given parity of rank index plus file index.
  predicate OfParity(i: nat, parity: nat)
  {
    (i / 8 + i % 8) % 2 == parity
  }

  /// The bits from i on of the board of one parity, computed on the
  /// indices alone.
  function CheckeredFrom(parity: nat, i: nat): nat
    decreases 64 - i
  {
    if i >= 64 then 0 else (if OfParity(i, parity) then 1 else 0) + 2 * CheckeredFrom(parity, i + 1)
  }

  /// The light pattern from bit 48 on, one bit at a time from the top.
  lemma LightPatternFrom48()
    ensures CheckeredFrom(1, 48) == 0x55AA
  {
    assert CheckeredFrom(1, 63) == 0x0;
    assert CheckeredFrom(1, 62) == 0x1;
    assert CheckeredFrom(1, 61) == 0x2;
    assert CheckeredFrom(1, 60) == 0x5;
    assert CheckeredFrom(1, 59) == 0xA;
    assert CheckeredFrom(1, 58) == 0x15;
    assert CheckeredFrom(1, 57) == 0x2A;
    assert CheckeredFrom(1, 56) == 0x55;
    assert CheckeredFrom(1, 55) == 0xAB;
    assert CheckeredFrom(1, 54) == 0x156;
    assert CheckeredFrom(1, 53) == 0x2AD;
    assert CheckeredFrom(1, 52) == 0x55A;
    assert CheckeredFrom(1, 51) == 0xAB5;
    assert CheckeredFrom(1, 50) == 0x156A;
    assert CheckeredFrom(1, 49) == 0x2AD5;
    assert CheckeredFrom(1, 48) == 0x55AA;
  }

  /// The light pattern from bit 32 on, one bit at a time from the top.
  lemma LightPatternFrom32()
    ensures CheckeredFrom(1, 32) == 0x55AA55AA
  {
    LightPatternFrom48();
    assert CheckeredFrom(1, 47) == 0xAB54;
    assert CheckeredFrom(1, 46) == 0x156A9;
    assert CheckeredFrom(1, 45) == 0x2AD52;
    assert CheckeredFrom(1, 44) == 0x55AA5;
    assert CheckeredFrom(1, 43) == 0xAB54A;
    assert CheckeredFrom(1, 42) == 0x156A95;
    assert CheckeredFrom(1, 41) == 0x2AD52A;
    assert CheckeredFrom(1, 40) == 0x55AA55;
    assert CheckeredFrom(1, 39) == 0xAB54AB;
    assert CheckeredFrom(1, 38) == 0x156A956;
    assert CheckeredFrom(1, 37) == 0x2AD52AD;
    assert CheckeredFrom(1, 36) == 0x55AA55A;
    assert CheckeredFrom(1, 35) == 0xAB54AB5;
    assert CheckeredFrom(1, 34) == 0x156A956A;
    assert CheckeredFrom(1, 33) == 0x2AD52AD5;
    assert CheckeredFrom(1, 32) == 0x55AA55AA;
  }

  /// The light pattern from bit 16 on, one bit at a time from the top.
  lemma LightPatternFrom16()
    ensures CheckeredFrom(1, 16) == 0x55AA55AA55AA
  {
    LightPatternFrom32();
    assert CheckeredFrom(1, 31) == 0xAB54AB54;
    assert CheckeredFrom(1, 30) == 0x156A956A9;
    assert CheckeredFrom(1, 29) == 0x2AD52AD52;
    assert CheckeredFrom(1, 28) == 0x55AA55AA5;
    assert CheckeredFrom(1, 27) == 0xAB54AB54A;
    assert CheckeredFrom(1, 26) == 0x156A956A95;
    assert CheckeredFrom(1, 25) == 0x2AD52AD52A;
    assert CheckeredFrom(1, 24) == 0x55AA55AA55;
    assert CheckeredFrom(1, 23) == 0xAB54AB54AB;
    assert CheckeredFrom(1, 22) == 0x156A956A956;
    assert CheckeredFrom(1, 21) == 0x2AD52AD52AD;
    assert CheckeredFrom(1, 20) == 0x55AA55AA55A;
    assert CheckeredFrom(1, 19) == 0xAB54AB54AB5;
    assert CheckeredFrom(1, 18) == 0x156A956A956A;
    assert CheckeredFrom(1, 17) == 0x2AD52AD52AD5;
    assert CheckeredFrom(1, 16) == 0x55AA55AA55AA;
  }

  /// The light pattern from bit 0 on, one bit at a time from the top.
  lemma LightPatternFrom0()
    ensures CheckeredFrom(1, 0) == 0x55AA55AA55AA55AA
  {
    LightPatternFrom16();
    assert CheckeredFrom(1, 15) == 0xAB54AB54AB54;
    assert CheckeredFrom(1, 14) == 0x156A956A956A9;
    assert CheckeredFrom(1, 13) == 0x2AD52AD52AD52;
    assert CheckeredFrom(1, 12) == 0x55AA55AA55AA5;
    assert CheckeredFrom(1, 11) == 0xAB54AB54AB54A;
    assert CheckeredFrom(1, 10) == 0x156A956A956A95;
    assert CheckeredFrom(1, 9) == 0x2AD52AD52AD52A;
    assert CheckeredFrom(1, 8) == 0x55AA55AA55AA55;
    assert CheckeredFrom(1, 7) == 0xAB54AB54AB54AB;
    assert CheckeredFrom(1, 6) == 0x156A956A956A956;
    assert CheckeredFrom(1, 5) == 0x2AD52AD52AD52AD;
    assert CheckeredFrom(1, 4) == 0x55AA55AA55AA55A;
    assert CheckeredFrom(1, 3) == 0xAB54AB54AB54AB5;
    assert CheckeredFrom(1, 2) == 0x156A956A956A956A;
    assert CheckeredFrom(1, 1) == 0x2AD52AD52AD52AD5;
    assert CheckeredFrom(1, 0) == 0x55AA55AA55AA55AA;
  }

  /// The dark pattern from bit 48 on, one bit at a time from the top.
  lemma DarkPatternFrom48()
    ensures CheckeredFrom(0, 48) == 0xAA55
  {
    assert CheckeredFrom(0, 63) == 0x1;
    assert CheckeredFrom(0, 62) == 0x2;
    assert CheckeredFrom(0, 61) == 0x5;
    assert CheckeredFrom(0, 60) == 0xA;
    assert CheckeredFrom(0, 59) == 0x15;
    assert CheckeredFrom(0, 58) == 0x2A;
    assert CheckeredFrom(0, 57) == 0x55;
    assert CheckeredFrom(0, 56) == 0xAA;
    assert CheckeredFrom(0, 55) == 0x154;
    assert CheckeredFrom(0, 54) == 0x2A9;
    assert CheckeredFrom(0, 53) == 0x552;
    assert CheckeredFrom(0, 52) == 0xAA5;
    assert CheckeredFrom(0, 51) == 0x154A;
    assert CheckeredFrom(0, 50) == 0x2A95;
    assert CheckeredFrom(0, 49) == 0x552A;
    assert CheckeredFrom(0, 48) == 0xAA55;
  }

  /// The dark pattern from bit 32 on, one bit at a time from the top.
  lemma DarkPatternFrom32()
    ensures CheckeredFrom(0, 32) == 0xAA55AA55
  {
    DarkPatternFrom48();
    assert CheckeredFrom(0, 47) == 0x154AB;
    assert CheckeredFrom(0, 46) == 0x2A956;
    assert CheckeredFrom(0, 45) == 0x552AD;
    assert CheckeredFrom(0, 44) == 0xAA55A;
    assert CheckeredFrom(0, 43) == 0x154AB5;
    assert CheckeredFrom(0, 42) == 0x2A956A;
    assert CheckeredFrom(0, 41) == 0x552AD5;
    assert CheckeredFrom(0, 40) == 0xAA55AA;
    assert CheckeredFrom(0, 39) == 0x154AB54;
    assert CheckeredFrom(0, 38) == 0x2A956A9;
    assert CheckeredFrom(0, 37) == 0x552AD52;
    assert CheckeredFrom(0, 36) == 0xAA55AA5;
    assert CheckeredFrom(0, 35) == 0x154AB54A;
    assert CheckeredFrom(0, 34) == 0x2A956A95;
    assert CheckeredFrom(0, 33) == 0x552AD52A;
    assert CheckeredFrom(0, 32) == 0xAA55AA55;
  }

  /// The dark pattern from bit 16 on, one bit at a time from the top.
  lemma DarkPatternFrom16()
    ensures CheckeredFrom(0, 16) == 0xAA55AA55AA55
  {
    DarkPatternFrom32();
    assert CheckeredFrom(0, 31) == 0x154AB54AB;
    assert CheckeredFrom(0, 30) == 0x2A956A956;
    assert CheckeredFrom(0, 29) == 0x552AD52AD;
    assert CheckeredFrom(0, 28) == 0xAA55AA55A;
    assert CheckeredFrom(0, 27) == 0x154AB54AB5;
    assert CheckeredFrom(0, 26) == 0x2A956A956A;
    assert CheckeredFrom(0, 25) == 0x552AD52AD5;
    assert CheckeredFrom(0, 24) == 0xAA55AA55AA;
    assert CheckeredFrom(0, 23) == 0x154AB54AB54;
    assert CheckeredFrom(0, 22) == 0x2A956A956A9;
    assert CheckeredFrom(0, 21) == 0x552AD52AD52;
    assert CheckeredFrom(0, 20) == 0xAA55AA55AA5;
    assert CheckeredFrom(0, 19) == 0x154AB54AB54A;
    assert CheckeredFrom(0, 18) == 0x2A956A956A95;
    assert CheckeredFrom(0, 17) == 0x552AD52AD52A;
    assert CheckeredFrom(0, 16) == 0xAA55AA55AA55;
  }

  /// The dark pattern from bit 0 on, one bit at a time from the top.
  lemma DarkPatternFrom0()
    ensures CheckeredFrom(0, 0) == 0xAA55AA55AA55AA55
  {
    DarkPatternFrom16();
    assert CheckeredFrom(0, 15) == 0x154AB54AB54AB;
    assert CheckeredFrom(0, 14) == 0x2A956A956A956;
    assert CheckeredFrom(0, 13) == 0x552AD52AD52AD;
    assert CheckeredFrom(0, 12) == 0xAA55AA55AA55A;
    assert CheckeredFrom(0, 11) == 0x154AB54AB54AB5;
    assert CheckeredFrom(0, 10) == 0x2A956A956A956A;
    assert CheckeredFrom(0, 9) == 0x552AD52AD52AD5;
    assert CheckeredFrom(0, 8) == 0xAA55AA55AA55AA;
    assert CheckeredFrom(0, 7) == 0x154AB54AB54AB54;
    assert CheckeredFrom(0, 6) == 0x2A956A956A956A9;
    assert CheckeredFrom(0, 5) == 0x552AD52AD52AD52;
    assert CheckeredFrom(0, 4) == 0xAA55AA55AA55AA5;
    assert CheckeredFrom(0, 3) == 0x154AB54AB54AB54A;
    assert CheckeredFrom(0, 2) == 0x2A956A956A956A95;
    assert CheckeredFrom(0, 1) == 0x552AD52AD52AD52A;
    assert CheckeredFrom(0, 0) == 0xAA55AA55AA55AA55;
  }
}

// The square colours (WHITE_SQUARES and BLACK_SQUARES of
// src/defs/bitboard.rs, used by `Square::color` in src/defs/square.rs):
// the two u64 constants are the light and the dark squares.
module SquareColors {
  import opened CheckerPatterns
  import opened Squares
  import opened BitBoards
  import Colors

  /// The light squares: B1, D1, ..., A2, C2, ... (rank index + file index odd).
  const LIGHT: BitBoard := set s: Square | OfParity(s, 1)

  /// The dark squares: A1, C1, ..., B2, D2, ... (rank index + file index even).
  const DARK: BitBoard := set s: Square | OfParity(s, 0)

  /// `WHITE_SQUARES`, the u64 constant 0x55AA55AA55AA55AA.
  const WHITE_SQUARES: BitBoard := FromU64(0x55AA55AA55AA55AA)

  /// `BLACK_SQUARES`, the u64 constant 0xAA55AA55AA55AA55.
  const BLACK_SQUARES: BitBoard := FromU64(0xAA55AA55AA55AA55)

  /// A board holding exactly the squares of one parity.
  predicate Checkered(b: BitBoard, parity: nat)
  {
    forall s: Square :: s in b <==> OfParity(s, parity)
  }

  lemma {:induction false} CheckeredValueFrom(b: BitBoard, parity: nat, i: nat)
    requires Checkered(b, parity) && i <= 64
    ensures ValueFrom(b, i) == CheckeredFrom(parity, i)
    decreases 64 - i
  {
    if i < 64 {
      CheckeredValueFrom(b, parity, i + 1);
    }
  }

  /// The u64 of a checkered board.
  lemma CheckeredValue(b: BitBoard, parity: nat)
    requires Checkered(b, parity) && parity < 2
    ensures ToU64(b) == if parity == 1 then 0x55AA55AA55AA55AA else 0xAA55AA55AA55AA55
  {
    CheckeredValueFrom(b, parity, 0);
    if parity == 1 {
      LightPatternFrom0();
    } else {
      DarkPatternFrom0();
    }
  }

  /// WHITE_SQUARES holds exactly the light squares and BLACK_SQUARES exactly
  /// the dark ones; together they partition the board.
  lemma SquareColorConstants()
    ensures WHITE_SQUARES == LIGHT && BLACK_SQUARES == DARK
    ensures WHITE_SQUARES * BLACK_SQUARES == EMPTY && WHITE_SQUARES + BLACK_SQUARES == FULL
  {
    CheckeredValue(LIGHT, 1);
    CheckeredValue(DARK, 0);
    ToU64RoundTrip(LIGHT);
    ToU64RoundTrip(DARK);
  }


  /// A square overlaps WHITE_SQUARES exactly when it is light.
  lemma WhiteSquare(s: Square)
    ensures Overlaps(FromSquare(s), WHITE_SQUARES) <==> (RankIndex(s) + FileIndex(s)) % 2 == 1
  {
    SquareColorConstants();
    assert s in WHITE_SQUARES <==> (RankIndex(s) + FileIndex(s)) % 2 == 1;
    if s in WHITE_SQUARES {
      assert s in FromSquare(s) * WHITE_SQUARES;
    } else {
      assert FromSquare(s) * WHITE_SQUARES == EMPTY;
    }
  }

  /// `Square::color`: a square is white exactly when it is on WHITE_SQUARES,
  /// which are the light squares (rank index plus file index odd).
  function SquareColor(s: Square): (c: Colors.Color)
    ensures c == Colors.White <==> (RankIndex(s) + FileIndex(s)) % 2 == 1
  {
    WhiteSquare(s);
    if Overlaps(FromSquare(s), WHITE_SQUARES) then Colors.White else Colors.Black
  }
}
