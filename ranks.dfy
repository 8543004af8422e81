// The eight ranks of the board, First (white's back rank) to Eighth
// (src/defs/rank.rs).
module Ranks {
  import opened Wrappers

  datatype Rank = First | Second | Third | Fourth | Fifth | Sixth | Seventh | Eighth

  /// All ranks in ascending order.
  const RANKS: seq<Rank> := [First, Second, Third, Fourth, Fifth, Sixth, Seventh, Eighth]

  /// The rank's index, 0 for First up to 7 for Eighth.
  function ToU8(r: Rank): (v: nat)
    ensures v < 8 && RANKS[v] == r
  {
    match r
    case First => 0
    case Second => 1
    case Third => 2
    case Fourth => 3
    case Fifth => 4
    case Sixth => 5
    case Seventh => 6
    case Eighth => 7
  }

  /// The rank with a given index, None when the index exceeds 7.
  function FromIndex(index: nat): (r: Option<Rank>)
    ensures r.Some? <==> index <= 7
    ensures r.Some? ==> ToU8(r.value) == index
  {
    if index > 7 then None else Some(RANKS[index])
  }

  /// The rank with a given index; the caller guarantees it is at most 7.
  function FromU8Unchecked(v: nat): (r: Rank)
    requires v <= 7
    ensures ToU8(r) == v
  {
    RANKS[v]
  }

  /// The rank of the square with the given index: squares are numbered
  /// rank by rank, eight to a rank.
  function Of(square: int): (r: Rank)
    requires 0 <= square < 64
    ensures ToU8(r) == square / 8
  {
    RANKS[square / 8]
  }

  /// RANKS lists every rank exactly once, in ascending index order.
  lemma RanksOrdered(i: nat, j: nat)
    requires i < j < 8
    ensures ToU8(RANKS[i]) < ToU8(RANKS[j]) && RANKS[i] != RANKS[j]
  {
  }

  lemma IndexRoundTrip(r: Rank)
    ensures FromIndex(ToU8(r)) == Some(r)
  {
  }
}
