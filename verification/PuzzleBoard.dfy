/** What the puzzle stages share: twelve places and results packed in base 100. */
module PuzzleBoard {
  const CELLS := 12

  /** The places in their own order. */
  function Identity(n: nat): (s: seq<nat>)
    ensures |s| == n && forall i :: 0 <= i < n ==> s[i] == i
  {
    seq(n, i => i)
  }

  lemma Unpack(high: nat, low: nat)
    requires low < 100
    ensures (100 * high + low) / 100 == high && (100 * high + low) % 100 == low
  {
  }
}
