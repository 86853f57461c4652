/**
  The in-place shuffle that the puzzle stages (`ran_pos`) and the challenge
  monsters (`ran_ai`) share statement by statement. The values returned by
  rand() are a parameter.
 */
module Shuffle {
  import opened Sequences

  function Swapped<T>(s: seq<T>, i: nat, j: nat): (r: seq<T>)
    requires i < |s| && j < |s|
    ensures |r| == |s|
  {
    s[i := s[j]][j := s[i]]
  }

  /** rand() % n, for n > 0. */
  function Draw(draw: nat, n: nat): (j: nat)
    requires 0 < n
    ensures j < n
    ensures draw < n ==> j == draw
  {
    draw % n
  }

  /** The arrangement that the draws give to `s`: one draw per position, first position first. */
  function Shuffled<T>(s: seq<T>, draws: seq<nat>): (r: seq<T>)
    requires |s| <= |draws|
    ensures |r| == |s|
    decreases |s|
  {
    if s == [] then []
    else
      var t := Swapped(s, 0, Draw(draws[0], |s|));
      [t[0]] + Shuffled(t[1..], draws[1..])
  }

  /** The arrangement of `s` after only the cells lo, ..., hi-1 were shuffled. */
  function ShuffledPart<T>(s: seq<T>, lo: nat, hi: nat, draws: seq<nat>): (r: seq<T>)
    requires lo <= hi <= |s| && hi - lo <= |draws|
    ensures |r| == |s|
  {
    s[..lo] + Shuffled(s[lo..hi], draws) + s[hi..]
  }

  /** The loop from cell `i` and draw `k` on: each turn swaps cell `i` with a drawn cell of i, ..., hi-1. */
  function SwapsFrom<T>(s: seq<T>, i: nat, hi: nat, draws: seq<nat>, k: nat): (r: seq<T>)
    requires i <= hi <= |s| && k + (hi - i) <= |draws|
    ensures |r| == |s|
    decreases hi - i
  {
    if i == hi then s else SwapsFrom(Swapped(s, i, Draw(draws[k], hi - i) + i), i + 1, hi, draws, k + 1)
  }

  /** What a swap inside the slice i, ..., hi-1 leaves before cell i + 1, in the rest of the slice and after it. */
  lemma SwapInSlice<T>(s: seq<T>, i: nat, hi: nat, j: nat)
    requires i <= j < hi <= |s|
    ensures var t, u := Swapped(s, i, j), Swapped(s[i..hi], 0, j - i);
            t[..i + 1] == s[..i] + [u[0]] && t[i + 1..hi] == u[1..] && t[hi..] == s[hi..]
  {
  }

  lemma Regroup<T>(a: seq<T>, x: T, b: seq<T>, c: seq<T>)
    ensures (a + [x]) + b + c == a + ([x] + b) + c
  {
  }

  /** One turn of the loop leaves the outcome of the whole shuffle as it was. */
  lemma OneSwap<T>(s: seq<T>, i: nat, hi: nat, draws: seq<nat>)
    requires i < hi <= |s| && hi - i <= |draws|
    ensures ShuffledPart(Swapped(s, i, Draw(draws[0], hi - i) + i), i + 1, hi, draws[1..])
            == ShuffledPart(s, i, hi, draws)
  {
    var j := Draw(draws[0], hi - i);
    var t, u := Swapped(s, i, j + i), Swapped(s[i..hi], 0, j);
    SwapInSlice(s, i, hi, j + i);
    var rest := Shuffled(u[1..], draws[1..]);
    Regroup(s[..i], u[0], rest, s[hi..]);
    assert Shuffled(s[i..hi], draws) == [u[0]] + rest;
  }

  /** Running the swaps on the whole array shuffles exactly the slice. */
  lemma {:induction false} SwapsShuffleTheSlice<T>(s: seq<T>, i: nat, hi: nat, draws: seq<nat>, k: nat)
    requires i <= hi <= |s| && k + (hi - i) <= |draws|
    ensures SwapsFrom(s, i, hi, draws, k) == ShuffledPart(s, i, hi, draws[k..])
    decreases hi - i
  {
    if i == hi {
      assert s[i..hi] == [] && s == s[..i] + [] + s[hi..];
    } else {
      assert draws[k..][1..] == draws[k + 1..] && draws[k..][0] == draws[k];
      OneSwap(s, i, hi, draws[k..]);
      SwapsShuffleTheSlice(Swapped(s, i, Draw(draws[k], hi - i) + i), i + 1, hi, draws, k + 1);
    }
  }

  lemma AllSwaps<T>(s: seq<T>, i: nat, hi: nat, draws: seq<nat>)
    requires i <= hi <= |s| && hi - i <= |draws|
    ensures SwapsFrom(s, i, hi, draws, 0) == ShuffledPart(s, i, hi, draws)
  {
    SwapsShuffleTheSlice(s, i, hi, draws, 0);
    assert draws[0..] == draws;
  }

  /** Shuffles the `n` cells of `ptr` that start at `lo`. The count `m` is accepted and not used, as in the source. */
  method RanPos<T>(ptr: array<T>, lo: nat, n: nat, m: nat, draws: seq<nat>)
    requires lo + n <= ptr.Length && n <= |draws|
    modifies ptr
    ensures ptr[..] == ShuffledPart(old(ptr[..]), lo, lo + n, draws)
  {
    ghost var start, all := ptr[..], ptr[..];
    for i := 0 to n
      invariant ptr[..] == all
      invariant SwapsFrom(all, lo + i, lo + n, draws, i) == SwapsFrom(start, lo, lo + n, draws, 0)
    {
      var k := ptr[lo + i];
      var j := Draw(draws[i], n - i) + i;
      all := Swapped(all, lo + i, lo + j);
      ptr[lo + i] := ptr[lo + j];
      ptr[lo + j] := k;
    }
    AllSwaps(start, lo, lo + n, draws);
  }

  lemma SwappedIsPermutation<T>(s: seq<T>, i: nat, j: nat)
    requires i < |s| && j < |s|
    ensures multiset(Swapped(s, i, j)) == multiset(s)
  {
  }

  /** For every random outcome the shuffle loses nothing and invents nothing. */
  lemma {:induction false} ShuffledIsPermutation<T>(s: seq<T>, draws: seq<nat>)
    requires |s| <= |draws|
    ensures multiset(Shuffled(s, draws)) == multiset(s)
    decreases |s|
  {
    if s != [] {
      var t := Swapped(s, 0, Draw(draws[0], |s|));
      SwappedIsPermutation(s, 0, Draw(draws[0], |s|));
      ShuffledIsPermutation(t[1..], draws[1..]);
      assert t == [t[0]] + t[1..];
    }
  }

  /** A partial shuffle permutes exactly its slice and leaves every other cell alone. */
  lemma ShuffledPartPermutesItsSlice<T>(s: seq<T>, lo: nat, hi: nat, draws: seq<nat>)
    requires lo <= hi <= |s| && hi - lo <= |draws|
    ensures var r := ShuffledPart(s, lo, hi, draws);
            && r[..lo] == s[..lo] && r[hi..] == s[hi..]
            && r[lo..hi] == Shuffled(s[lo..hi], draws)
            && multiset(r[lo..hi]) == multiset(s[lo..hi])
            && multiset(r) == multiset(s)
  {
    ShuffledIsPermutation(s[lo..hi], draws);
    ReplaceSlice(s, lo, hi, Shuffled(s[lo..hi], draws));
  }

  lemma WholeIsShuffled<T>(s: seq<T>, draws: seq<nat>)
    requires |s| <= |draws|
    ensures ShuffledPart(s, 0, |s|, draws) == Shuffled(s, draws)
  {
    assert s[0..|s|] == s;
  }

  lemma PartIsPermutation<T>(s: seq<T>, lo: nat, hi: nat, draws: seq<nat>)
    requires lo <= hi <= |s| && hi - lo <= |draws|
    ensures multiset(ShuffledPart(s, lo, hi, draws)) == multiset(s)
  {
    ShuffledPartPermutesItsSlice(s, lo, hi, draws);
  }

  /** A shuffle of the cells lo, ..., hi-1. */
  datatype Part = Part(lo: nat, hi: nat, draws: seq<nat>)

  ghost predicate Fit(parts: seq<Part>, n: nat) {
    forall i :: 0 <= i < |parts| ==> parts[i].lo <= parts[i].hi <= n && parts[i].hi - parts[i].lo <= |parts[i].draws|
  }

  /** Partial shuffles one after the other. */
  ghost function ShuffledParts<T>(s: seq<T>, parts: seq<Part>): (r: seq<T>)
    requires Fit(parts, |s|)
    ensures |r| == |s|
    decreases |parts|
  {
    if parts == [] then s
    else ShuffledParts(ShuffledPart(s, parts[0].lo, parts[0].hi, parts[0].draws), parts[1..])
  }

  lemma {:induction false} PartsArePermutation<T>(s: seq<T>, parts: seq<Part>)
    requires Fit(parts, |s|)
    ensures multiset(ShuffledParts(s, parts)) == multiset(s)
    decreases |parts|
  {
    if parts != [] {
      PartIsPermutation(s, parts[0].lo, parts[0].hi, parts[0].draws);
      PartsArePermutation(ShuffledPart(s, parts[0].lo, parts[0].hi, parts[0].draws), parts[1..]);
    }
  }

  lemma {:induction false} OnePartMore<T>(s: seq<T>, parts: seq<Part>, p: Part)
    requires Fit(parts + [p], |s|)
    ensures Fit(parts, |s|) && p.lo <= p.hi <= |s| && p.hi - p.lo <= |p.draws|
    ensures ShuffledParts(s, parts + [p]) == ShuffledPart(ShuffledParts(s, parts), p.lo, p.hi, p.draws)
    decreases |parts|
  {
    var all := parts + [p];
    assert all[|parts|] == p && forall i :: 0 <= i < |parts| ==> all[i] == parts[i];
    if parts == [] {
      assert all == [p] && all[1..] == [];
    } else {
      assert all[0] == parts[0] && all[1..] == parts[1..] + [p];
      OnePartMore(ShuffledPart(s, parts[0].lo, parts[0].hi, parts[0].draws), parts[1..], p);
    }
  }

  ghost predicate Zeroes(draws: seq<nat>) { forall i :: 0 <= i < |draws| ==> draws[i] == 0 }

  /** Draws of zero leave every cell where it is. */
  lemma {:induction false} ZeroesShuffleNothing<T>(s: seq<T>, draws: seq<nat>)
    requires |s| <= |draws| && Zeroes(draws)
    ensures Shuffled(s, draws) == s
    decreases |s|
  {
    if s != [] {
      assert draws[0] == 0 && Swapped(s, 0, 0) == s;
      ZeroesShuffleNothing(s[1..], draws[1..]);
      assert s == [s[0]] + s[1..];
    }
  }

  lemma ZeroesShuffleNoPart<T>(s: seq<T>, lo: nat, hi: nat, draws: seq<nat>)
    requires lo <= hi <= |s| && hi - lo <= |draws| && Zeroes(draws)
    ensures ShuffledPart(s, lo, hi, draws) == s
  {
    ZeroesShuffleNothing(s[lo..hi], draws);
    assert s == s[..lo] + s[lo..hi] + s[hi..];
  }

  lemma {:induction false} ZeroPartsShuffleNothing<T>(s: seq<T>, parts: seq<Part>)
    requires Fit(parts, |s|) && forall i :: 0 <= i < |parts| ==> Zeroes(parts[i].draws)
    ensures ShuffledParts(s, parts) == s
    decreases |parts|
  {
    if parts != [] {
      ZeroesShuffleNoPart(s, parts[0].lo, parts[0].hi, parts[0].draws);
      ZeroPartsShuffleNothing(s, parts[1..]);
    }
  }

  /** With zeroes drawn afterwards the first shuffle decides. */
  lemma FirstPartDecides<T>(s: seq<T>, first: Part, rest: seq<Part>)
    requires Fit([first] + rest, |s|) && forall i :: 0 <= i < |rest| ==> Zeroes(rest[i].draws)
    ensures first.lo <= first.hi <= |s| && first.hi - first.lo <= |first.draws|
    ensures ShuffledParts(s, [first] + rest) == ShuffledPart(s, first.lo, first.hi, first.draws)
  {
    var all := [first] + rest;
    assert all[0] == first && all[1..] == rest;
    ZeroPartsShuffleNothing(ShuffledPart(s, first.lo, first.hi, first.draws), rest);
  }

  lemma ReplaceSlice<T>(s: seq<T>, lo: nat, hi: nat, b: seq<T>)
    requires lo <= hi <= |s| && |b| == hi - lo && multiset(b) == multiset(s[lo..hi])
    ensures var r := s[..lo] + b + s[hi..];
            r[..lo] == s[..lo] && r[hi..] == s[hi..] && r[lo..hi] == b && multiset(r) == multiset(s)
  {
    assert s == s[..lo] + s[lo..hi] + s[hi..];
  }

  /** Every arrangement of the input is the outcome of some draws. */
  lemma {:induction false} EveryArrangementIsDrawn<T>(s: seq<T>, target: seq<T>) returns (draws: seq<nat>)
    requires multiset(target) == multiset(s)
    ensures |draws| == |s| && Shuffled(s, draws) == target
    ensures forall i :: 0 <= i < |s| ==> draws[i] < |s| - i
    decreases |s|
  {
    assert |multiset(target)| == |target| && |multiset(s)| == |s|;
    if s == [] {
      draws := [];
    } else {
      assert target[0] in multiset(s);
      var j: nat :| j < |s| && s[j] == target[0];
      var t := Swapped(s, 0, j);
      SwappedIsPermutation(s, 0, j);
      SameHeadSameTail(t, target);
      var rest := EveryArrangementIsDrawn(t[1..], target[1..]);
      draws := [j] + rest;
      FirstDraw(s, j, rest);
      assert target == [target[0]] + target[1..];
    }
  }

  lemma FirstDraw<T>(s: seq<T>, j: nat, rest: seq<nat>)
    requires j < |s| == |rest| + 1
    ensures Shuffled(s, [j] + rest) == [s[j]] + Shuffled(Swapped(s, 0, j)[1..], rest)
    ensures (forall i :: 0 <= i < |rest| ==> rest[i] < |rest| - i) ==>
              forall i :: 0 <= i < |s| ==> ([j] + rest)[i] < |s| - i
  {
    assert ([j] + rest)[1..] == rest && ([j] + rest)[0] == j;
  }

  lemma SameHeadSameTail<T>(s: seq<T>, t: seq<T>)
    requires |s| > 0 && |t| > 0 && s[0] == t[0] && multiset(s) == multiset(t)
    ensures multiset(s[1..]) == multiset(t[1..])
  {
    assert s == [s[0]] + s[1..] && t == [t[0]] + t[1..];
    assert multiset(s[1..]) == multiset(s) - multiset{s[0]};
    assert multiset(t[1..]) == multiset(t) - multiset{t[0]};
  }

  /** Distinctness is a property of the contents, so it survives every rearrangement. */
  lemma PermutationKeepsDistinct<T(!new)>(s: seq<T>, t: seq<T>)
    requires Distinct(s) && multiset(s) == multiset(t)
    ensures Distinct(t)
  {
    forall i, j | 0 <= i < j < |t|
      ensures t[i] != t[j]
    {
      if t[i] == t[j] {
        CountOfRepeated(t, i, j);
        CountOfDistinct(s, t[i]);
      }
    }
  }

  lemma {:induction false} CountOfDistinct<T(!new)>(s: seq<T>, x: T)
    requires Distinct(s)
    ensures multiset(s)[x] <= 1
    decreases |s|
  {
    if s != [] {
      assert s == [s[0]] + s[1..];
      CountOfDistinct(s[1..], x);
      if s[0] == x {
        assert x !in s[1..];
      }
    }
  }

  lemma CountOfRepeated<T>(t: seq<T>, i: nat, j: nat)
    requires i < j < |t| && t[i] == t[j]
    ensures multiset(t)[t[i]] >= 2
  {
    assert t == t[..i] + [t[i]] + t[i + 1..];
    assert t[i + 1..][j - i - 1] == t[j];
    assert t[j] in multiset(t[i + 1..]);
  }
}
