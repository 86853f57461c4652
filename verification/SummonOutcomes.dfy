/**
  What one visit makes of a summon, told from its targets
  (gf/battle_svr/battle_impl.cpp, map_summon_object.cpp).
 */
module SummonOutcomes {
  import opened SummonRouting

  /**
    What the summon hands out to a target: nothing out of range or to the wrong team
    (type 1 is for the other team, 2 for its own, any other for both); else its buff
    if the target has not got it, and its effect if it is of one of the four kinds.
   */
  function Handed(s: Summon, t: Target): nat {
    if !t.inRange || (s.targetType == 1 && t.sameTeam) || (s.targetType == 2 && !t.sameTeam) then 0
    else (if s.buff != 0 && !t.hasBuff then 1 else 0) + (if s.hasEffect && s.kind != Other then 1 else 0)
  }

  /** The same over the targets i, ..., k-1. */
  function HandedTo(s: Summon, ts: seq<Target>, i: nat, k: nat): nat
    requires i <= k <= |ts|
    decreases k
  {
    if i == k then 0 else HandedTo(s, ts, i, k - 1) + Handed(s, ts[k - 1])
  }

  /** The summon after it handed out `n` times: only a condition-count summon pays for it. */
  function After(s: Summon, n: nat): Summon {
    s.(applied := s.applied + n, times := if s.kind == Condition then s.times - n else s.times)
  }

  lemma ActHands(s: Summon, t: Target)
    ensures Act(s, t) == After(s, Handed(s, t))
  {
  }

  lemma {:induction false} HandedLater(s: Summon, n: nat, ts: seq<Target>, i: nat, k: nat)
    requires i <= k <= |ts|
    ensures HandedTo(After(s, n), ts, i, k) == HandedTo(s, ts, i, k)
    decreases k
  {
    if i < k {
      HandedLater(s, n, ts, i, k - 1);
    }
  }

  lemma {:induction false} HandedSplit(s: Summon, ts: seq<Target>, i: nat, k: nat)
    requires i < k <= |ts|
    ensures HandedTo(s, ts, i, k) == Handed(s, ts[i]) + HandedTo(s, ts, i + 1, k)
    decreases k
  {
    if i + 1 < k {
      HandedSplit(s, ts, i, k - 1);
    }
  }

  lemma {:induction false} DeathHandsToAll(s: Summon, ts: seq<Target>)
    ensures ActOnAll(s, ts) == After(s, HandedTo(s, ts, 0, |ts|))
    decreases |ts|
  {
    if ts != [] {
      var n := |ts| - 1;
      DeathHandsToAll(s, ts[..n]);
      HandedToPrefix(s, ts, n, n);
      ActHands(After(s, HandedTo(s, ts, 0, n)), ts[n]);
    }
  }

  lemma {:induction false} HandedToPrefix(s: Summon, ts: seq<Target>, n: nat, k: nat)
    requires k <= n <= |ts|
    ensures HandedTo(s, ts[..n], 0, k) == HandedTo(s, ts, 0, k)
    decreases k
  {
    if k > 0 {
      HandedToPrefix(s, ts, n, k - 1);
    }
  }

  /** Is the summon to be erased, before a target, once it handed out `n` times in this visit? */
  predicate Spent(s: Summon, finished: bool, n: nat) {
    match s.kind
    case Condition => s.times <= n || (s.timed && finished)
    case Times => s.times <= 0
    case Continue => finished
    case Dead => finished
    case Other => false
  }

  /** Target after target, up to the first one before which it is spent. */
  lemma {:induction false} HandsUntilSpent(s: Summon, v: View, i: nat) returns (k: nat)
    requires i <= |v.targets|
    ensures i <= k <= |v.targets|
    ensures forall m :: i <= m < k ==> !Spent(s, v.finished, HandedTo(s, v.targets, i, m))
    ensures k < |v.targets| ==> Spent(s, v.finished, HandedTo(s, v.targets, i, k))
    ensures ActWhileAlive(s, v, i) == Outcome(After(s, HandedTo(s, v.targets, i, k)), k < |v.targets|)
    decreases |v.targets| - i
  {
    var ts := v.targets;
    if i == |ts| || CheckDelete(s, v.finished) {
      k := i;
    } else {
      var n := Handed(s, ts[i]);
      ActHands(s, ts[i]);
      k := HandsUntilSpent(After(s, n), v, i + 1);
      forall m | i < m <= k
        ensures HandedTo(s, ts, i, m) == n + HandedTo(After(s, n), ts, i + 1, m)
      {
        HandedSplit(s, ts, i, m);
        HandedLater(s, n, ts, i + 1, m);
      }
      forall m | i <= m < k
        ensures !Spent(s, v.finished, HandedTo(s, ts, i, m))
      {
        if m > i {
          assert !Spent(After(s, n), v.finished, HandedTo(After(s, n), ts, i + 1, m));
        }
      }
    }
  }

  /**
    What a visit does. A summon that acts on its death hands out to everybody when
    its timer ends, and is erased; any other does nothing during its delay, and then
    hands out until it is spent, and is erased exactly if a target comes after that;
    a pass-count summon that stays pays for the pass.
   */
  lemma VisitDecides(s: Summon, v: View) returns (k: nat)
    ensures k <= |v.targets|
    ensures var o, n, ts := Visit(s, v), HandedTo(s, v.targets, 0, k), v.targets;
            var acted := After(s, n).(passes := s.passes + if n > 0 then 1 else 0);
            if s.kind == Dead then
              if v.finished then k == |ts| && o == Outcome(acted, true) else o == Outcome(s, false)
            else if !v.delayOver then o == Outcome(s, false)
            else
              && (forall m :: 0 <= m < k ==> !Spent(s, v.finished, HandedTo(s, ts, 0, m)))
              && (k < |ts| ==> Spent(s, v.finished, n))
              && o.erased == (k < |ts|)
              && o.summon == (if s.kind == Times && k == |ts| then acted.(times := s.times - 1) else acted)
  {
    if s.kind == Dead {
      k := |v.targets|;
      DeathHandsToAll(s, v.targets);
    } else if v.delayOver {
      k := HandsUntilSpent(s, v, 0);
    } else {
      k := 0;
    }
  }
}
