/** Facts about sequences that several models share. */
module Sequences {

  ghost predicate Distinct<T(!new)>(s: seq<T>) {
    forall i, j :: 0 <= i < j < |s| ==> s[i] != s[j]
  }

  /** 1, 2, ..., n */
  function UpTo(n: nat): (ids: seq<nat>)
    ensures |ids| == n && forall i :: 0 <= i < n ==> ids[i] == i + 1
  {
    seq(n, i => i + 1)
  }

  /** `s` without its first occurrence of `x` (std::find and erase). */
  function Erase<T(==)>(s: seq<T>, x: T): (r: seq<T>)
    ensures |r| == |s| - (if x in s then 1 else 0)
  {
    if s == [] then [] else if s[0] == x then s[1..] else [s[0]] + Erase(s[1..], x)
  }

  /** Erasing from different elements removes exactly `x`, keeps the order and the distinctness. */
  lemma {:induction false} EraseFromDistinct<T(!new)>(s: seq<T>, x: T)
    requires Distinct(s)
    ensures Distinct(Erase(s, x))
    ensures forall y :: y in Erase(s, x) <==> y in s && y != x
    ensures Erase(s, x) != [] ==> Erase(s, x)[0] == (if s[0] == x then s[1] else s[0])
    decreases |s|
  {
    if s != [] {
      assert s == [s[0]] + s[1..];
      assert forall y :: y in s <==> y == s[0] || y in s[1..];
      assert s[0] !in s[1..];
      if s[0] != x {
        EraseFromDistinct(s[1..], x);
        var rest := Erase(s[1..], x);
        assert s[0] !in rest;
        assert forall y :: y in [s[0]] + rest <==> y == s[0] || y in rest;
      }
    }
  }

  lemma AppendDistinct<T(!new)>(s: seq<T>, x: T)
    requires Distinct(s) && x !in s
    ensures Distinct(s + [x]) && forall y :: y in s + [x] <==> y in s || y == x
  {
  }

  /** `s` without the members of `gone`, in order. */
  function Keep<T(==)>(s: seq<T>, gone: set<T>): seq<T> {
    if s == [] then [] else (if s[0] in gone then [] else [s[0]]) + Keep(s[1..], gone)
  }

  /** Removing members one at a time amounts to removing their set. */
  lemma {:induction false} EraseIsKeep<T(!new)>(s: seq<T>, gone: set<T>, x: T)
    requires Distinct(s)
    ensures Erase(Keep(s, gone), x) == Keep(s, gone + {x})
    decreases |s|
  {
    if s != [] {
      var rest := Keep(s[1..], gone);
      EraseIsKeep(s[1..], gone, x);
      if s[0] in gone {
        assert Keep(s, gone) == rest && Keep(s, gone + {x}) == Keep(s[1..], gone + {x});
      } else {
        assert Keep(s, gone) == [s[0]] + rest && ([s[0]] + rest)[1..] == rest;
        if s[0] == x {
          NothingToKeepOut(s[1..], gone, x);
          assert Keep(s, gone + {x}) == Keep(s[1..], gone + {x});
        }
      }
    }
  }

  lemma {:induction false} NothingToKeepOut<T(!new)>(s: seq<T>, gone: set<T>, x: T)
    requires x !in s
    ensures Keep(s, gone + {x}) == Keep(s, gone)
    decreases |s|
  {
    if s != [] {
      NothingToKeepOut(s[1..], gone, x);
    }
  }

  lemma {:induction false} KeepNobodyOut<T(!new)>(s: seq<T>)
    ensures Keep(s, {}) == s
    decreases |s|
  {
    if s != [] {
      KeepNobodyOut(s[1..]);
    }
  }
}
