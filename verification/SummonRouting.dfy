/**
  Summons lying on a battle's maps: the periodic pass that triggers and erases
  them, and the charges they spend (gf/battle_svr/battle_impl.cpp,
  gf/battle_svr/map_summon_object.cpp).
 */
module SummonRouting {

  /** `action_type_`: continuous, counted per condition, on death, counted per pass, anything else. */
  datatype Kind = Continue | Condition | Dead | Times | Other

  /**
    A summon. `times` is the signed charge counter; `built` (the charges it
    was created with), `applied` (effects and buffs handed out) and `passes`
    (passes in which it did something) are history.
   */
  datatype Summon = Summon(id: nat, kind: Kind, times: int, hasEffect: bool, buff: nat, targetType: nat,
                           timed: bool, built: nat, applied: nat, passes: nat)

  /** A player or monster on the summon's map. */
  datatype Target = Target(inRange: bool, sameTeam: bool, hasBuff: bool)

  /** What one pass shows a summon: who is on its map, whether its timer ended and its delay is over. */
  datatype View = View(targets: seq<Target>, finished: bool, delayOver: bool)

  datatype Outcome = Outcome(summon: Summon, erased: bool)

  function Create(id: nat, kind: Kind, charges: nat, hasEffect: bool, buff: nat, targetType: nat, timed: bool): Summon {
    Summon(id, kind, charges, hasEffect, buff, targetType, timed, charges, 0, 0)
  }

  /** The summon as it was created. */
  function AsBuilt(s: Summon): Summon { s.(times := s.built, applied := 0, passes := 0) }

  predicate CheckTargetType(s: Summon, t: Target) {
    if s.targetType == 1 then !t.sameTeam else if s.targetType == 2 then t.sameTeam else true
  }

  predicate Matches(s: Summon, t: Target) { t.inRange && CheckTargetType(s, t) }

  predicate CheckDelete(s: Summon, finished: bool) {
    match s.kind
    case Condition => s.times <= 0 || (s.timed && finished)
    case Times => s.times <= 0
    case Continue => finished
    case Dead => finished
    case Other => false
  }

  function ProcessBuff(s: Summon, t: Target): Summon {
    if s.buff != 0 && !t.hasBuff then
      s.(applied := s.applied + 1, times := if s.kind == Condition then s.times - 1 else s.times)
    else s
  }

  function ProcessEffect(s: Summon): Summon {
    if !s.hasEffect || s.kind == Other then s
    else s.(applied := s.applied + 1, times := if s.kind == Condition then s.times - 1 else s.times)
  }

  function Act(s: Summon, t: Target): Summon {
    if Matches(s, t) then ProcessEffect(ProcessBuff(s, t)) else s
  }

  /** A dying summon hits everyone once. */
  function ActOnAll(s: Summon, ts: seq<Target>): Summon {
    if ts == [] then s else Act(ActOnAll(s, ts[..|ts| - 1]), ts[|ts| - 1])
  }

  /** Target after target, with the deletion test before each. */
  function ActWhileAlive(s: Summon, v: View, i: nat): Outcome
    requires i <= |v.targets|
    decreases |v.targets| - i
  {
    if i == |v.targets| then Outcome(s, false)
    else if CheckDelete(s, v.finished) then Outcome(s, true)
    else ActWhileAlive(Act(s, v.targets[i]), v, i + 1)
  }

  function Noted(before: Summon, after: Summon): Summon {
    if after.applied > before.applied then after.(passes := before.passes + 1) else after
  }

  /** One summon's share of a pass. */
  function Visit(s: Summon, v: View): Outcome {
    if s.kind == Dead then
      if CheckDelete(s, v.finished) then Outcome(Noted(s, ActOnAll(s, v.targets)), true) else Outcome(s, false)
    else if !v.delayOver then Outcome(s, false)
    else
      var o := ActWhileAlive(s, v, 0);
      var after := Noted(s, o.summon);
      if !o.erased && s.kind == Times then Outcome(after.(times := after.times - 1), false)
      else Outcome(after, o.erased)
  }

  /** Every summon's outcome of one pass, one view each. */
  function Outcomes(list: seq<Summon>, views: seq<View>): (r: seq<Outcome>)
    requires |list| == |views|
    ensures |r| == |list|
  {
    seq(|list|, i requires 0 <= i < |list| => Visit(list[i], views[i]))
  }

  /** The summons still listed after the first `n` outcomes. */
  function Survivors(os: seq<Outcome>, n: nat): seq<Summon>
    requires n <= |os|
  {
    if n == 0 then [] else Survivors(os, n - 1) + (if os[n - 1].erased then [] else [os[n - 1].summon])
  }

  class Battle {
    var mapSummonList: seq<Summon>

    constructor ()
      ensures mapSummonList == []
    {
      mapSummonList := [];
    }

    method AddMapSummon(id: nat, kind: Kind, charges: nat, hasEffect: bool, buff: nat, targetType: nat, timed: bool)
      modifies this
      ensures mapSummonList == old(mapSummonList) + [Create(id, kind, charges, hasEffect, buff, targetType, timed)]
    {
      mapSummonList := mapSummonList + [Create(id, kind, charges, hasEffect, buff, targetType, timed)];
    }

    /** One summon's turn on the targets that were on its map when the turn began. */
    method TriggerSummon(s: Summon, v: View) returns (after: Summon, erased: bool)
      ensures Outcome(after, erased) == Visit(s, v)
    {
      after, erased := s, false;
      if s.kind == Dead {
        if CheckDelete(s, v.finished) {
          for i := 0 to |v.targets|
            invariant after == ActOnAll(s, v.targets[..i])
          {
            var t := v.targets[i];
            assert v.targets[..i + 1][..i] == v.targets[..i];
            if t.inRange && CheckTargetType(after, t) {
              after := ProcessBuff(after, t);
              after := ProcessEffect(after);
            }
          }
          assert v.targets[..|v.targets|] == v.targets;
          after, erased := Noted(s, after), true;
        }
        return;
      }
      if !v.delayOver {
        return;
      }
      var i := 0;
      while i < |v.targets| && !erased
        invariant i <= |v.targets|
        invariant if erased then Outcome(after, true) == ActWhileAlive(s, v, 0)
                  else ActWhileAlive(after, v, i) == ActWhileAlive(s, v, 0)
        decreases |v.targets| - i, !erased
      {
        if CheckDelete(after, v.finished) {
          erased := true;
        } else {
          var t := v.targets[i];
          if t.inRange && CheckTargetType(after, t) {
            after := ProcessBuff(after, t);
            after := ProcessEffect(after);
          }
          i := i + 1;
        }
      }
      after := Noted(s, after);
      if !erased && after.kind == Times {
        after := after.(times := after.times - 1);
      }
      KindIsFixed(s, v, 0);
    }

    /**
      The pass over the list, erasing while iterating: every summon listed at
      the start is visited exactly once, in order, and exactly those not erased
      by their own visit remain.
     */
    method MapSummonRouting(views: seq<View>)
      requires |views| == |mapSummonList|
      modifies this
      ensures mapSummonList == Survivors(Outcomes(old(mapSummonList), views), |views|)
    {
      ghost var all, os := mapSummonList, Outcomes(mapSummonList, views);
      var at, visited := 0, 0;
      while at < |mapSummonList|
        invariant visited <= |all| && at <= |mapSummonList|
        invariant mapSummonList[..at] == Survivors(os, visited)
        invariant mapSummonList[at..] == all[visited..]
        decreases |mapSummonList| - at
      {
        assert mapSummonList[at] == mapSummonList[at..][0] == all[visited];
        var after, erased := TriggerSummon(mapSummonList[at], views[visited]);
        assert Outcome(after, erased) == os[visited];
        assert mapSummonList[at + 1..] == mapSummonList[at..][1..] == all[visited + 1..];
        visited := visited + 1;
        if erased {
          mapSummonList := mapSummonList[..at] + mapSummonList[at + 1..];
        } else {
          mapSummonList := mapSummonList[at := after];
          at := at + 1;
        }
      }
      assert mapSummonList[..at] == mapSummonList;
    }
  }

  lemma {:induction false} KindIsFixed(s: Summon, v: View, i: nat)
    requires i <= |v.targets|
    ensures var t := ActWhileAlive(s, v, i).summon;
            AsBuilt(t) == AsBuilt(s) && t.passes == s.passes
    decreases |v.targets| - i
  {
    if i < |v.targets| && !CheckDelete(s, v.finished) {
      KindIsFixed(Act(s, v.targets[i]), v, i + 1);
    }
  }

  // ---- Charges over a summon's life -------------------------------------

  /** Does it hand out both an effect and a buff? */
  predicate Both(s: Summon) { s.hasEffect && s.buff != 0 }

  /**
    Charge accounting. A condition-count summon spends one charge per
    application and may overdraw by one only when it carries both an effect and
    a buff; a pass-count summon has acted in no more passes than it has counted.
   */
  predicate ChargesKept(s: Summon) {
    match s.kind
    case Condition =>
      && s.applied + s.times == s.built
      && s.times >= (if Both(s) && s.built > 0 then -1 else 0)
    case Times => s.passes + (if s.times > 0 then s.times else 0) <= s.built
    case _ => true
  }

  lemma {:induction false} VisitKeepsConditionCharges(s: Summon, v: View, i: nat)
    requires s.kind == Condition && ChargesKept(s) && i <= |v.targets|
    ensures ChargesKept(ActWhileAlive(s, v, i).summon)
    decreases |v.targets| - i
  {
    if i < |v.targets| && !CheckDelete(s, v.finished) {
      VisitKeepsConditionCharges(Act(s, v.targets[i]), v, i + 1);
    }
  }

  lemma {:induction false} TimesCounterIsConstantInAPass(s: Summon, v: View, i: nat)
    requires s.kind == Times && i <= |v.targets|
    ensures var o := ActWhileAlive(s, v, i); o.summon.times == s.times
    ensures s.times <= 0 ==> ActWhileAlive(s, v, i).summon == s
    ensures s.times > 0 ==> !ActWhileAlive(s, v, i).erased
    decreases |v.targets| - i
  {
    if i < |v.targets| && !CheckDelete(s, v.finished) {
      TimesCounterIsConstantInAPass(Act(s, v.targets[i]), v, i + 1);
    }
  }

  lemma VisitKeepsCharges(s: Summon, v: View)
    requires ChargesKept(s)
    ensures ChargesKept(Visit(s, v).summon)
  {
    VisitKeepsOrigin(s, v);
    if s.kind == Condition {
      VisitKeepsConditionCharges(s, v, 0);
    } else if s.kind == Times {
      KindIsFixed(s, v, 0);
      TimesCounterIsConstantInAPass(s, v, 0);
    }
  }

  lemma {:induction false} ActOnAllKeepsKind(s: Summon, ts: seq<Target>)
    ensures AsBuilt(ActOnAll(s, ts)) == AsBuilt(s)
    decreases |ts|
  {
    if ts != [] {
      ActOnAllKeepsKind(s, ts[..|ts| - 1]);
    }
  }

  /** A visit leaves a summon that was created as this one was, whatever its charges. */
  lemma VisitKeepsOrigin(s: Summon, v: View)
    ensures AsBuilt(Visit(s, v).summon) == AsBuilt(s)
  {
    ActOnAllKeepsKind(s, v.targets);
    KindIsFixed(s, v, 0);
  }

  /** A summon's life: visited once per view until it is erased. */
  function Life(s: Summon, views: seq<View>): Outcome
    decreases |views|
  {
    if views == [] then Outcome(s, false)
    else
      var o := Visit(s, views[0]);
      if o.erased then o else Life(o.summon, views[1..])
  }

  lemma {:induction false} LifeKeepsCharges(s: Summon, views: seq<View>)
    requires ChargesKept(s)
    ensures var t := Life(s, views).summon;
            ChargesKept(t) && AsBuilt(t) == AsBuilt(s)
    decreases |views|
  {
    if views != [] {
      VisitKeepsCharges(s, views[0]);
      VisitKeepsOrigin(s, views[0]);
      if !Visit(s, views[0]).erased {
        LifeKeepsCharges(Visit(s, views[0]).summon, views[1..]);
      }
    }
  }

  /**
    Over its whole life, whatever it meets, a condition-count summon built with
    n charges applies its effect and buff at most n times, or n + 1 times when
    it carries both and has a charge at all.
   */
  lemma ConditionSummonSpendsItsCharges(id: nat, n: nat, hasEffect: bool, buff: nat, targetType: nat, timed: bool,
                                        views: seq<View>)
    ensures var t := Life(Create(id, Condition, n, hasEffect, buff, targetType, timed), views).summon;
            t.applied <= n + (if hasEffect && buff != 0 && n > 0 then 1 else 0)
  {
    LifeKeepsCharges(Create(id, Condition, n, hasEffect, buff, targetType, timed), views);
  }

  /** A pass-count summon built with n charges acts in at most n passes. */
  lemma PassSummonActsInAtMostNPasses(id: nat, n: nat, hasEffect: bool, buff: nat, targetType: nat, timed: bool,
                                      views: seq<View>)
    ensures Life(Create(id, Times, n, hasEffect, buff, targetType, timed), views).summon.passes <= n
  {
    LifeKeepsCharges(Create(id, Times, n, hasEffect, buff, targetType, timed), views);
  }

  /**
    The extra application is real for every n > 0: n - 1 targets that already wear the
    buff, then one that does not.
   */
  lemma OverdraftByOneHappens(id: nat, n: nat)
    requires n > 0
    ensures var veterans := seq(n - 1, _ => Target(true, true, true));
            var v := View(veterans + [Target(true, true, false)], false, true);
            Life(Create(id, Condition, n, true, 7, 3, false), [v]).summon.applied == n + 1
  {
    var s := Create(id, Condition, n, true, 7, 3, false);
    var v := View(seq(n - 1, _ => Target(true, true, true)) + [Target(true, true, false)], false, true);
    SpendOnVeterans(s, v, 0, n);
    var o := Visit(s, v);
    assert Life(o.summon, [v][1..]) == Outcome(o.summon, false);
  }

  lemma {:induction false} SpendOnVeterans(s: Summon, v: View, i: nat, n: nat)
    requires s.kind == Condition && s.hasEffect && s.buff != 0 && s.targetType == 3 && !s.timed
    requires i < n == |v.targets| && !v.finished && s.times == n - i
    requires forall k :: 0 <= k < n - 1 ==> v.targets[k] == Target(true, true, true)
    requires v.targets[n - 1] == Target(true, true, false)
    ensures ActWhileAlive(s, v, i).summon.applied == s.applied + (n - i) + 1
    decreases n - i
  {
    if i < n - 1 {
      SpendOnVeterans(Act(s, v.targets[i]), v, i + 1, n);
    }
  }

  /** A whole pass keeps every listed summon's account, so the bounds hold for the list at every moment. */
  lemma {:induction false} PassKeepsCharges(list: seq<Summon>, views: seq<View>, n: nat)
    requires n <= |list| == |views| && forall s :: s in list ==> ChargesKept(s)
    ensures forall s :: s in Survivors(Outcomes(list, views), n) ==> ChargesKept(s)
    ensures |Survivors(Outcomes(list, views), n)| <= n
    decreases n
  {
    if n > 0 {
      PassKeepsCharges(list, views, n - 1);
      VisitKeepsCharges(list[n - 1], views[n - 1]);
    }
  }

  /**
    Erasing one summon disturbs no other: each summon that survives its own
    visit is in the list afterwards, with exactly the state its visit left.
   */
  lemma {:induction false} SurvivorsAreExactlyTheKept(os: seq<Outcome>, n: nat, s: Summon)
    requires n <= |os|
    ensures s in Survivors(os, n) <==> exists i :: 0 <= i < n && !os[i].erased && os[i].summon == s
    decreases n
  {
    if n > 0 {
      SurvivorsAreExactlyTheKept(os, n - 1, s);
    }
  }

  // ---- Every sequence of creations and passes --------------------------

  datatype Event =
    | Add(id: nat, kind: Kind, charges: nat, hasEffect: bool, buff: nat, targetType: nat, timed: bool)
    | Pass(views: seq<View>)

  /** The list of a battle, and the summons it once held with the state their last visit left. */
  datatype Ground = Ground(listed: seq<Summon>, erased: seq<Summon>)

  /** The summons that the first `n` outcomes take off the list. */
  function Erased(os: seq<Outcome>, n: nat): seq<Summon>
    requires n <= |os|
  {
    if n == 0 then [] else Erased(os, n - 1) + (if os[n - 1].erased then [os[n - 1].summon] else [])
  }

  /** A pass needs a view for every listed summon; without them it is none. */
  function Step(g: Ground, e: Event): Ground {
    match e
    case Add(id, kind, charges, hasEffect, buff, targetType, timed) =>
      g.(listed := g.listed + [Create(id, kind, charges, hasEffect, buff, targetType, timed)])
    case Pass(views) =>
      if |views| != |g.listed| then g
      else
        var os := Outcomes(g.listed, views);
        Ground(Survivors(os, |os|), g.erased + Erased(os, |os|))
  }

  function Run(g: Ground, es: seq<Event>): Ground
    decreases |es|
  {
    if es == [] then g else Run(Step(g, es[0]), es[1..])
  }

  /** The summons that a run creates, as they were created. */
  function Made(es: seq<Event>): seq<Summon> {
    if es == [] then [] else MadeBy(es[0]) + Made(es[1..])
  }

  function MadeBy(e: Event): seq<Summon> {
    match e
    case Add(id, kind, charges, hasEffect, buff, targetType, timed) =>
      [Summon(id, kind, charges, hasEffect, buff, targetType, timed, charges, 0, 0)]
    case Pass(_) => []
  }

  function Origins(list: seq<Summon>): (r: seq<Summon>)
    ensures |r| == |list| && forall i :: 0 <= i < |list| ==> r[i] == AsBuilt(list[i])
  {
    seq(|list|, i requires 0 <= i < |list| => AsBuilt(list[i]))
  }

  lemma OriginsAppend(a: seq<Summon>, b: seq<Summon>)
    ensures Origins(a + b) == Origins(a) + Origins(b)
  {
  }

  /** Everything a battle ever listed, as it was created. */
  function All(g: Ground): multiset<Summon> { multiset(Origins(g.listed)) + multiset(Origins(g.erased)) }

  ghost predicate AllKept(g: Ground) {
    (forall s :: s in g.listed ==> ChargesKept(s)) && (forall s :: s in g.erased ==> ChargesKept(s))
  }

  lemma {:induction false} ErasedKeepCharges(list: seq<Summon>, views: seq<View>, n: nat)
    requires n <= |list| == |views| && forall s :: s in list ==> ChargesKept(s)
    ensures forall s :: s in Erased(Outcomes(list, views), n) ==> ChargesKept(s)
    decreases n
  {
    if n > 0 {
      ErasedKeepCharges(list, views, n - 1);
      VisitKeepsCharges(list[n - 1], views[n - 1]);
    }
  }

  /** One visit puts its summon into exactly one of the two lists. */
  lemma OneVisitConserves(kept: seq<Summon>, gone: seq<Summon>, before: seq<Summon>, s: Summon, o: Outcome)
    requires multiset(Origins(kept)) + multiset(Origins(gone)) == multiset(Origins(before))
             && AsBuilt(o.summon) == AsBuilt(s)
    ensures multiset(Origins(kept + (if o.erased then [] else [o.summon])))
            + multiset(Origins(gone + (if o.erased then [o.summon] else [])))
            == multiset(Origins(before + [s]))
  {
    OriginsAppend(before, [s]);
    OriginsAppend(kept, [o.summon]);
    OriginsAppend(gone, [o.summon]);
    assert Origins([s]) == Origins([o.summon]) && kept + [] == kept && gone + [] == gone;
  }

  lemma {:induction false} OutcomesConserve(list: seq<Summon>, os: seq<Outcome>, n: nat)
    requires n <= |list| == |os| && forall i :: 0 <= i < |list| ==> AsBuilt(os[i].summon) == AsBuilt(list[i])
    ensures multiset(Origins(Survivors(os, n))) + multiset(Origins(Erased(os, n))) == multiset(Origins(list[..n]))
    decreases n
  {
    if n > 0 {
      OutcomesConserve(list, os, n - 1);
      OneVisitConserves(Survivors(os, n - 1), Erased(os, n - 1), list[..n - 1], list[n - 1], os[n - 1]);
      assert list[..n] == list[..n - 1] + [list[n - 1]];
    }
  }

  /** A pass neither loses nor doubles a summon. */
  lemma PassConserves(list: seq<Summon>, views: seq<View>)
    requires |list| == |views|
    ensures var os := Outcomes(list, views);
            multiset(Origins(Survivors(os, |os|))) + multiset(Origins(Erased(os, |os|))) == multiset(Origins(list))
  {
    var os := Outcomes(list, views);
    forall i | 0 <= i < |list|
      ensures AsBuilt(os[i].summon) == AsBuilt(list[i])
    {
      VisitKeepsOrigin(list[i], views[i]);
    }
    OutcomesConserve(list, os, |os|);
    assert list[..|os|] == list;
  }

  lemma StepConserves(g: Ground, e: Event)
    ensures All(Step(g, e)) == All(g) + multiset(MadeBy(e))
  {
    match e
    case Add(id, kind, charges, hasEffect, buff, targetType, timed) =>
      OriginsAppend(g.listed, MadeBy(e));
      assert Origins(MadeBy(e)) == MadeBy(e);
    case Pass(views) =>
      if |views| == |g.listed| {
        var os := Outcomes(g.listed, views);
        PassConserves(g.listed, views);
        OriginsAppend(g.erased, Erased(os, |os|));
      }
  }

  lemma StepKeepsCharges(g: Ground, e: Event)
    requires AllKept(g)
    ensures AllKept(Step(g, e))
  {
    if e.Pass? && |e.views| == |g.listed| {
      PassKeepsCharges(g.listed, e.views, |e.views|);
      ErasedKeepCharges(g.listed, e.views, |e.views|);
    }
  }

  lemma {:induction false} RunKeepsCharges(g: Ground, es: seq<Event>)
    requires AllKept(g)
    ensures AllKept(Run(g, es)) && All(Run(g, es)) == All(g) + multiset(Made(es))
    decreases |es|
  {
    if es != [] {
      StepKeepsCharges(g, es[0]);
      StepConserves(g, es[0]);
      RunKeepsCharges(Step(g, es[0]), es[1..]);
    }
  }

  /** What the charges a summon was created with allow it. */
  predicate WithinCharges(s: Summon) {
    && (s.kind == Condition ==> s.applied <= s.built + (if Both(s) && s.built > 0 then 1 else 0))
    && (s.kind == Times ==> s.passes <= s.built)
  }

  lemma KeptIsWithin(g: Ground)
    requires AllKept(g)
    ensures forall s :: s in g.listed || s in g.erased ==> WithinCharges(s)
  {
  }

  lemma NothingYet(g: Ground)
    requires g == Ground([], [])
    ensures AllKept(g) && All(g) == multiset{}
  {
  }

  /**
    Over every sequence of creations and passes, whatever the summons meet: each
    summon the battle lists or ever listed stays within its charges, and taken
    as they were created, what it lists and what it erased are exactly the
    summons created, each as often as it was.
   */
  lemma EverySummonStaysWithinItsCharges(es: seq<Event>)
    ensures var g := Run(Ground([], []), es);
            && (forall s :: s in g.listed || s in g.erased ==> WithinCharges(s))
            && All(g) == multiset(Made(es))
  {
    var start := Ground([], []);
    NothingYet(start);
    RunKeepsCharges(start, es);
    KeptIsWithin(Run(start, es));
  }
}
