// The 64 squares of the board, numbered little-endian rank-file:
// A1 = 0, B1 = 1, ..., H1 = 7, A2 = 8, ..., H8 = 63 (src/defs/square.rs).
module Squares {
  import opened Wrappers
  import Ranks
  import Files

  type Square = x: int | 0 <= x < 64

  // A few named squares the rules refer to.
  const A1: Square := 0
  const C1: Square := 2
  const D1: Square := 3
  const E1: Square := 4
  const F1: Square := 5
  const G1: Square := 6
  const H1: Square := 7
  const A8: Square := 56
  const C8: Square := 58
  const D8: Square := 59
  const E8: Square := 60
  const F8: Square := 61
  const G8: Square := 62
  const H8: Square := 63

  /// Index of the square's rank (0 = first rank).
  function RankIndex(s: Square): nat { s / 8 }

  /// Index of the square's file (0 = file A).
  function FileIndex(s: Square): nat { s % 8 }

  /// The square on a given rank and file.
  function At(rank: Ranks.Rank, file: Files.File): (s: Square)
    ensures Rank(s) == rank && File(s) == file
  {
    Ranks.ToU8(rank) * 8 + Files.ToU8(file)
  }

  /// The square with a given index, None when the index exceeds 63.
  function FromU8(val: nat): (r: Option<Square>)
    ensures r.Some? <==> val <= 63
    ensures r.Some? ==> r.value == val
  {
    if val > 63 then None else Some(val)
  }

  /// The rank the square lies on.
  function Rank(s: Square): Ranks.Rank
  {
    Ranks.Of(s)
  }

  /// The file the square lies on.
  function File(s: Square): Files.File
  {
    Files.Of(s)
  }

  /// The lower-case file letter of a file.
  function FileChar(f: Files.File): char
  {
    "abcdefgh"[Files.ToU8(f)]
  }

  /// The rank digit of a rank.
  function RankChar(r: Ranks.Rank): char
  {
    "12345678"[Ranks.ToU8(r)]
  }

  /// Parses a square name: a lower-case file letter followed by a rank digit.
  /// Any other string, including upper-case letters and strings of another
  /// length, is an error.
  function FromString(str: string): (r: Result<Square, ()>)
    ensures r.Ok? <==> |str| == 2 && 'a' <= str[0] <= 'h' && '1' <= str[1] <= '8'
    ensures r.Ok? ==>
      FileIndex(r.value) == str[0] as int - 'a' as int && RankIndex(r.value) == str[1] as int - '1' as int
  {
    if |str| != 2 then Err(())
    else
      var file :=
        match str[0]
        case 'a' => Some(Files.A)
        case 'b' => Some(Files.B)
        case 'c' => Some(Files.C)
        case 'd' => Some(Files.D)
        case 'e' => Some(Files.E)
        case 'f' => Some(Files.F)
        case 'g' => Some(Files.G)
        case 'h' => Some(Files.H)
        case _ => None;
      var rank :=
        match str[1]
        case '1' => Some(Ranks.First)
        case '2' => Some(Ranks.Second)
        case '3' => Some(Ranks.Third)
        case '4' => Some(Ranks.Fourth)
        case '5' => Some(Ranks.Fifth)
        case '6' => Some(Ranks.Sixth)
        case '7' => Some(Ranks.Seventh)
        case '8' => Some(Ranks.Eighth)
        case _ => None;
      if file.None? || rank.None? then Err(())
      else Ok(At(rank.value, file.value))
  }

  /// The square's name: its file letter followed by its rank digit.
  function ToString(s: Square): (str: string)
    ensures |str| == 2
  {
    [FileChar(File(s)), RankChar(Rank(s))]
  }

  /// Printing a square and parsing the name back gives the same square.
  lemma StringRoundTrip(s: Square)
    ensures FromString(ToString(s)) == Ok(s)
  {
    var str := ToString(s);
    assert str[0] as int - 'a' as int == FileIndex(s);
    assert str[1] as int - '1' as int == RankIndex(s);
  }

  /// A name that parses is the printed name of the square it denotes.
  lemma ParsedStringRoundTrip(str: string)
    requires FromString(str).Ok?
    ensures ToString(FromString(str).value) == str
  {
    var s := FromString(str).value;
    assert ToString(s)[0] == str[0];
    assert ToString(s)[1] == str[1];
  }

  /// The square one rank up, None on the eighth rank.
  function Up(s: Square): (r: Option<Square>)
    ensures r.Some? <==> RankIndex(s) < 7
    ensures r.Some? ==> RankIndex(r.value) == RankIndex(s) + 1 && FileIndex(r.value) == FileIndex(s)
  {
    if Rank(s) == Ranks.Eighth then None else Some(s + 8)
  }

  /// The square one rank down, None on the first rank.
  function Down(s: Square): (r: Option<Square>)
    ensures r.Some? <==> RankIndex(s) > 0
    ensures r.Some? ==> RankIndex(r.value) + 1 == RankIndex(s) && FileIndex(r.value) == FileIndex(s)
  {
    if Rank(s) == Ranks.First then None else Some(s - 8)
  }

  /// The square one file to the left, None on file A.
  function Left(s: Square): (r: Option<Square>)
    ensures r.Some? <==> FileIndex(s) > 0
    ensures r.Some? ==> FileIndex(r.value) + 1 == FileIndex(s) && RankIndex(r.value) == RankIndex(s)
  {
    if File(s) == Files.A then None else Some(s - 1)
  }

  /// The square one file to the right, None on file H.
  function Right(s: Square): (r: Option<Square>)
    ensures r.Some? <==> FileIndex(s) < 7
    ensures r.Some? ==> FileIndex(r.value) == FileIndex(s) + 1 && RankIndex(r.value) == RankIndex(s)
  {
    if File(s) == Files.H then None else Some(s + 1)
  }

  /// Up and Down undo each other.
  lemma UpDownInverse(s: Square)
    ensures Up(s).Some? ==> Down(Up(s).value) == Some(s)
    ensures Down(s).Some? ==> Up(Down(s).value) == Some(s)
  {
  }

  /// Left and Right undo each other.
  lemma LeftRightInverse(s: Square)
    ensures Left(s).Some? ==> Right(Left(s).value) == Some(s)
    ensures Right(s).Some? ==> Left(Right(s).value) == Some(s)
  {
  }
}
