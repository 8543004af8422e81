// The eight files of the board, A (queenside edge) to H (src/defs/file.rs).
module Files {
  import opened Wrappers

  datatype File = A | B | C | D | E | F | G | H

  /// All files in ascending order.
  const FILES: seq<File> := [A, B, C, D, E, F, G, H]

  /// The file's index, 0 for A up to 7 for H.
  function ToU8(f: File): (v: nat)
    ensures v < 8 && FILES[v] == f
  {
    match f
    case A => 0
    case B => 1
    case C => 2
    case D => 3
    case E => 4
    case F => 5
    case G => 6
    case H => 7
  }

  /// The file with a given index, None when the index exceeds 7.
  function FromU8(index: nat): (f: Option<File>)
    ensures f.Some? <==> index <= 7
    ensures f.Some? ==> ToU8(f.value) == index
  {
    if index > 7 then None else Some(FILES[index])
  }

  /// The file of the square with the given index: the index modulo 8.
  function Of(square: int): (f: File)
    requires 0 <= square < 64
    ensures ToU8(f) == square % 8
  {
    FILES[square % 8]
  }

  /// FILES lists every file exactly once, in ascending index order.
  lemma FilesOrdered(i: nat, j: nat)
    requires i < j < 8
    ensures ToU8(FILES[i]) < ToU8(FILES[j]) && FILES[i] != FILES[j]
  {
  }

  lemma IndexRoundTrip(f: File)
    ensures FromU8(ToU8(f)) == Some(f)
  {
  }
}
