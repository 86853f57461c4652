/**
  Stage 934: up to fifteen rounds, each lighting three to six of twelve
  mechanisms that have to be hit without touching a dark one
  (gf/battle_svr/battle_logic.cpp).
 */
module Stage934 {
  import opened BitMask
  import opened PuzzleBoard
  import opened Sequences
  import opened Shuffle
  import opened Words

  const ROUNDS := 15

  /**
    `common_flag3_` holds either the number of lit mechanisms or a clock
    reading, told apart by being below or above 20: the clock is a Unix time.
   */
  predicate Clock(now: nat) { 20 < now && now + 3 < U32 }

  /**
    The battle's counters: rounds started, lit mask, lights left or time stamp,
    packed results, and whether the logic was unregistered. The last three are
    history: finished rounds and whether the "all rounds used" branch ran.
   */
  datatype Stage = Stage(rounds: nat, mask: nat, left: nat, section: nat, over: bool,
                         succeeded: nat, failed: nat, exhausted: bool)

  const INITIAL := Stage(0, 0, 0, 0, false, 0, 0, false)

  datatype Event = Tick(now: nat, draws: seq<nat>) | Hit(cell: nat, now: nat)

  ghost predicate Enabled(e: Event) {
    && Clock(e.now)
    && (e.Tick? ==> |e.draws| >= CELLS)
  }

  function RoundSize(rounds: nat): (n: nat)
    ensures 3 <= n <= 6
  {
    if rounds < 3 then 3 else if rounds < 7 then 4 else if rounds < 11 then 5 else 6
  }

  /** The mask that lights the first `n` cells of `cells`. */
  function MaskOf(cells: seq<nat>, n: nat): nat
    requires n <= |cells|
  {
    if n == 0 then 0 else SetOn(MaskOf(cells, n - 1), cells[n - 1] + 1)
  }

  /** `process_battle_934_logic`, without the shield of monster 19145; `lit` is the mask a new round would show. */
  function TickStage(s: Stage, now: nat, lit: nat): Stage {
    if s.over || 0 < s.left < 20 || s.mask != 0 then s
    else if s.left == 0 then s.(left := Add32(now, 3))
    else if Add32(s.left, 2) > now then s
    else if s.section % 100 >= 10 then s.(left := 0)
    else
      var lost := s.section / 100 >= 6;
      if s.rounds < ROUNDS then
        s.(left := RoundSize(s.rounds), mask := lit, rounds := s.rounds + 1, over := lost)
      else
        s.(left := 0, over := true, exhausted := true)
  }

  function Lit(rounds: nat, draws: seq<nat>): nat
    requires |draws| >= CELLS
  {
    MaskOf(Shuffled(Identity(CELLS), draws), RoundSize(rounds))
  }

  /**
    The stage 934 half of `extra_mechanism_logic`; `cell` is the mechanism's place, or
    12 and more for none of them.
   */
  function HitStage(s: Stage, cell: nat, now: nat): Stage {
    if s.left == 0 || s.left > 20 || cell >= CELLS then s
    else if TestBit(s.mask, cell + 1) then
      var mask := SetOff(s.mask, cell + 1);
      if mask == 0 then s.(mask := 0, left := now, section := s.section + 1, succeeded := s.succeeded + 1)
      else s.(mask := mask, left := s.left - 1)
    else s.(mask := 0, left := now, section := s.section + 100, failed := s.failed + 1)
  }

  function HitAnswer(s: Stage, cell: nat): nat {
    if s.left == 0 || s.left > 20 then 0
    else if cell < CELLS && !TestBit(s.mask, cell + 1) then 3
    else 1
  }

  function Step(s: Stage, e: Event): Stage
    requires Enabled(e)
  {
    match e
    case Tick(now, draws) => TickStage(s, now, Lit(s.rounds, draws))
    case Hit(cell, now) => HitStage(s, cell, now)
  }

  predicate Running(s: Stage) { s.mask != 0 }

  predicate Inv(s: Stage) {
    && s.mask < Power2(CELLS)
    && (Running(s) ==> s.left == PopCount(s.mask) && 1 <= s.left <= 6)
    && (!Running(s) ==> s.left == 0 || s.left > 20)
    && s.section == 100 * s.failed + s.succeeded
    && s.succeeded + s.failed + (if Running(s) then 1 else 0) == s.rounds <= ROUNDS
    && (s.over ==> s.failed >= 6)
    && (s.exhausted ==> s.rounds == ROUNDS && s.over)
  }

  /** The mask lights exactly the chosen mechanisms. */
  lemma {:induction false} MaskLights(cells: seq<nat>, n: nat, pos: nat)
    requires n <= |cells| && pos >= 1
    ensures TestBit(MaskOf(cells, n), pos) <==> exists i :: 0 <= i < n && cells[i] + 1 == pos
    decreases n
  {
    if n == 0 {
      NoBitOfZero(pos);
    } else {
      MaskLights(cells, n - 1, pos);
      SetOnEffect(MaskOf(cells, n - 1), cells[n - 1] + 1, pos);
    }
  }

  /** Different mechanisms make as many lights. */
  lemma {:induction false} MaskCounts(cells: seq<nat>, n: nat)
    requires n <= |cells| && Distinct(cells)
    ensures PopCount(MaskOf(cells, n)) == n
    decreases n
  {
    if n > 0 {
      var last := cells[n - 1] + 1;
      MaskCounts(cells, n - 1);
      MaskLights(cells, n - 1, last);
      SetOnEffect(MaskOf(cells, n - 1), last, last);
    }
  }

  lemma {:induction false} MaskFits(cells: seq<nat>, n: nat, width: nat)
    requires n <= |cells| && forall i :: 0 <= i < |cells| ==> cells[i] < width
    ensures MaskOf(cells, n) < Power2(width)
    decreases n
  {
    if n > 0 {
      MaskFits(cells, n - 1, width);
      SetOnFits(MaskOf(cells, n - 1), cells[n - 1] + 1, width);
    }
  }

  lemma {:induction false} NoBitOfZero(pos: nat)
    requires pos >= 1
    ensures !TestBit(0, pos)
    decreases pos
  {
    if pos > 1 {
      NoBitOfZero(pos - 1);
    }
  }

  lemma LitIsExact(rounds: nat, draws: seq<nat>)
    requires |draws| >= CELLS
    ensures PopCount(Lit(rounds, draws)) == RoundSize(rounds) && 0 < Lit(rounds, draws) < Power2(CELLS) == 4096
  {
    var cells := Shuffled(Identity(CELLS), draws);
    ShuffledIsPermutation(Identity(CELLS), draws);
    PermutationKeepsDistinct(Identity(CELLS), cells);
    forall i | 0 <= i < CELLS
      ensures cells[i] < CELLS
    {
      assert cells[i] in multiset(cells);
    }
    MaskCounts(cells, RoundSize(rounds));
    MaskFits(cells, RoundSize(rounds), CELLS);
    assert Power2(6) == 64;
    assert Power2(CELLS) == 64 * Power2(6);
  }

  lemma TickKeepsInv(s: Stage, now: nat, lit: nat)
    requires Inv(s) && Clock(now) && PopCount(lit) == RoundSize(s.rounds) && 0 < lit < Power2(CELLS)
    ensures Inv(TickStage(s, now, lit))
  {
    Unpack(s.failed, s.succeeded);
  }

  /** The light of a hit mechanism goes out and only that one. */
  lemma LightGoesOut(mask: nat, cell: nat)
    requires mask < Power2(CELLS) && cell < CELLS && TestBit(mask, cell + 1)
    ensures var m := SetOff(mask, cell + 1);
            PopCount(m) == PopCount(mask) - 1 && (m == 0 <==> PopCount(m) == 0) && m < Power2(CELLS)
  {
    SetOffEffect(mask, cell + 1, 1);
    SetOnFits(mask, cell + 1, CELLS);
    ZeroIffEmpty(SetOff(mask, cell + 1));
  }

  lemma HitKeepsInv(s: Stage, cell: nat, now: nat)
    requires Inv(s) && Clock(now)
    ensures Inv(HitStage(s, cell, now))
  {
    if cell < CELLS && TestBit(s.mask, cell + 1) {
      LightGoesOut(s.mask, cell);
    }
  }

  lemma StepKeepsInv(s: Stage, e: Event)
    requires Inv(s) && Enabled(e)
    ensures Inv(Step(s, e))
  {
    match e
    case Tick(now, draws) =>
      LitIsExact(s.rounds, draws);
      TickKeepsInv(s, now, Lit(s.rounds, draws));
    case Hit(cell, now) =>
      HitKeepsInv(s, cell, now);
  }

  ghost predicate Run(trace: seq<Stage>, events: seq<Event>) {
    && |trace| == |events| + 1 && trace[0] == INITIAL
    && forall i :: 0 <= i < |events| ==> Enabled(events[i]) && trace[i + 1] == Step(trace[i], events[i])
  }

  /**
    In every run, in every state: a round runs exactly while the mask is
    nonzero and then the light counter is the mask's population, 1 to 6;
    successes, failures and the running round add up to the rounds started, at
    most 15; the packed results are exact; the stage is only ever lost with at
    least six failures, also through the "all rounds used" branch.
   */
  lemma {:induction false} RunKeepsInv(trace: seq<Stage>, events: seq<Event>, n: nat)
    requires Run(trace, events) && n < |trace|
    ensures Inv(trace[n])
    decreases n
  {
    if n > 0 {
      RunKeepsInv(trace, events, n - 1);
      StepKeepsInv(trace[n - 1], events[n - 1]);
    }
  }

  // ---- What a hit and a tick decide ------------------------------------

  /** The lit mechanism `cell` is the last one. */
  predicate LastLight(s: Stage, cell: nat) { cell < CELLS && TestBit(s.mask, cell + 1) && PopCount(s.mask) == 1 }

  /** The mechanism `cell` is dark although a round runs. */
  predicate Dark(s: Stage, cell: nat) { cell < CELLS && Running(s) && !TestBit(s.mask, cell + 1) }

  /**
    What a hit decides: the last light finishes the round as a success, a dark
    mechanism finishes it as a failure, any other light just goes out.
   */
  lemma HitDecides(s: Stage, cell: nat, now: nat)
    requires Inv(s) && Clock(now)
    ensures var t := HitStage(s, cell, now);
            && t.section == s.section + (if LastLight(s, cell) then 1 else if Dark(s, cell) then 100 else 0)
            && t.succeeded == s.succeeded + (if LastLight(s, cell) then 1 else 0)
            && t.failed == s.failed + (if Dark(s, cell) then 1 else 0)
            && (!Running(s) || cell >= CELLS ==> t == s)
            && (Running(s) && cell < CELLS ==>
                  if LastLight(s, cell) || Dark(s, cell) then !Running(t) && t.left == now
                  else Running(t) && t.left == s.left - 1
                       && forall k :: k >= 1 ==> TestBit(t.mask, k) == (k != cell + 1 && TestBit(s.mask, k)))
            && t.rounds == s.rounds && t.over == s.over
    ensures HitAnswer(s, cell) == if !Running(s) then 0 else if Dark(s, cell) then 3 else 1
  {
    if Running(s) && cell < CELLS && TestBit(s.mask, cell + 1) {
      LightGoesOut(s.mask, cell);
      forall k | k >= 1
        ensures TestBit(SetOff(s.mask, cell + 1), k) == (k != cell + 1 && TestBit(s.mask, k))
      {
        SetOffEffect(s.mask, cell + 1, k);
      }
    }
    if !Running(s) && cell < CELLS {
      NoBitOfZero(cell + 1);
    }
  }

  /** How many of the first `n` events finish a round as a success, or as a failure. */
  function Finished(trace: seq<Stage>, events: seq<Event>, n: nat, success: bool): nat
    requires n <= |events| < |trace|
  {
    if n == 0 then 0
    else
      var s, e := trace[n - 1], events[n - 1];
      Finished(trace, events, n - 1, success)
      + (if e.Hit? && (if success then LastLight(s, e.cell) else Dark(s, e.cell)) then 1 else 0)
  }

  lemma ResultCounts(s: Stage, e: Event, t: Stage)
    requires Inv(s) && Enabled(e) && t == Step(s, e)
    ensures t.succeeded == s.succeeded + (if e.Hit? && LastLight(s, e.cell) then 1 else 0)
    ensures t.failed == s.failed + (if e.Hit? && Dark(s, e.cell) then 1 else 0)
  {
    if e.Hit? {
      HitDecides(s, e.cell, e.now);
    }
  }

  lemma OneMoreEvent(trace: seq<Stage>, events: seq<Event>, n: nat)
    requires Run(trace, events) && n < |events|
    ensures var s, e, t := trace[n], events[n], trace[n + 1];
            && t.succeeded == s.succeeded + (if e.Hit? && LastLight(s, e.cell) then 1 else 0)
            && t.failed == s.failed + (if e.Hit? && Dark(s, e.cell) then 1 else 0)
  {
    RunKeepsInv(trace, events, n);
    ResultCounts(trace[n], events[n], trace[n + 1]);
  }

  lemma {:induction false} HitsAreCounted(trace: seq<Stage>, events: seq<Event>, n: nat)
    requires Run(trace, events) && n < |trace|
    ensures trace[n].succeeded == Finished(trace, events, n, true)
    ensures trace[n].failed == Finished(trace, events, n, false)
    decreases n
  {
    if n > 0 {
      HitsAreCounted(trace, events, n - 1);
      OneMoreEvent(trace, events, n - 1);
    }
  }

  /** In every run the packed results are the last lights put out and, times 100, the dark mechanisms touched. */
  lemma ResultsAreTheHits(trace: seq<Stage>, events: seq<Event>, n: nat)
    requires Run(trace, events) && n < |trace|
    ensures trace[n].section == 100 * Finished(trace, events, n, false) + Finished(trace, events, n, true)
  {
    HitsAreCounted(trace, events, n);
    RunKeepsInv(trace, events, n);
  }

  /** Three rounds of three lights, four of four, four of five and four of six. */
  lemma RoundSizes(rounds: nat)
    requires rounds < ROUNDS
    ensures RoundSize(rounds) == 3 + (rounds + 1) / 4
  {
  }

  predicate Glows(mask: nat, cell: nat) { TestBit(mask, cell + 1) }

  /** Every choice of mechanisms can be lit: for each arrangement of the twelve some draws light its first ones. */
  lemma AnyCellsCanBeLit(rounds: nat, cells: seq<nat>) returns (draws: seq<nat>)
    requires rounds < ROUNDS && multiset(cells) == multiset(Identity(CELLS)) && |cells| == CELLS
    ensures |draws| == CELLS
    ensures forall c :: 0 <= c < CELLS ==> (Glows(Lit(rounds, draws), c) <==> c in cells[..3 + (rounds + 1) / 4])
  {
    draws := EveryArrangementIsDrawn(Identity(CELLS), cells);
    RoundSizes(rounds);
    forall c | 0 <= c < CELLS
      ensures Glows(Lit(rounds, draws), c) <==> c in cells[..RoundSize(rounds)]
    {
      MaskLights(cells, RoundSize(rounds), c + 1);
    }
  }

  /**
    What a tick decides, in terms of the results: nothing while a round runs or
    within two seconds of the time stamp; else, with ten successes, nothing ever
    starts again, six failures lose, and a round starts while fewer than fifteen did.
   */
  lemma TickDecides(s: Stage, now: nat, lit: nat)
    requires Inv(s) && !s.over && Clock(now) && s.left < U32 - 2
    ensures var t := TickStage(s, now, lit);
            var due := !Running(s) && s.left > 0 && now >= s.left + 2;
            var starts := due && s.succeeded < 10 && s.rounds < 15;
            && (!Running(s) && s.left == 0 ==> t == s.(left := now + 3))
            && (s.left > 0 && !due ==> t == s)
            && (t.over <==> due && s.succeeded < 10 && (s.failed >= 6 || s.rounds == 15))
            && t.rounds == s.rounds + (if starts then 1 else 0)
            && (starts ==> t.mask == lit && t.left == 3 + (s.rounds + 1) / 4)
            && (due && !starts ==> !Running(t) && t.left == 0)
            && t.section == s.section
  {
    Unpack(s.failed, s.succeeded);
  }

  /** What else holds in every run: at most ten rounds succeed, and at most seven fail, the seventh after the loss. */
  ghost predicate Bounded(s: Stage) {
    && Inv(s) && s.succeeded <= 10 && s.failed <= 7
    && (Running(s) ==> s.succeeded < 10 && s.failed < 7)
    && (Running(s) && s.failed == 6 ==> s.over)
    && (s.failed == 7 ==> s.over)
  }

  lemma StepKeepsBounds(s: Stage, e: Event, t: Stage)
    requires Bounded(s) && Enabled(e) && t == Step(s, e)
    ensures Bounded(t)
  {
    StepKeepsInv(s, e);
    Unpack(s.failed, s.succeeded);
    if e.Hit? {
      HitDecides(s, e.cell, e.now);
    }
  }

  lemma {:induction false} AtMostTenSucceedAndSevenFail(trace: seq<Stage>, events: seq<Event>, n: nat)
    requires Run(trace, events) && n < |trace|
    ensures Bounded(trace[n])
    decreases n
  {
    if n > 0 {
      AtMostTenSucceedAndSevenFail(trace, events, n - 1);
      StepKeepsBounds(trace[n - 1], events[n - 1], trace[n]);
    }
  }

  /** The base-100 packing of the results never carries. */
  lemma ResultsUnpack(s: Stage)
    requires Inv(s)
    ensures s.section / 100 == s.failed && s.section % 100 == s.succeeded
  {
    Unpack(s.failed, s.succeeded);
  }

  /**
    Pigeonhole: when all fifteen rounds are used without ten successes, at
    least six failed, so the branch that declares the loss for running out of
    rounds only repeats a loss the test above it has just declared.
   */
  lemma OutOfRoundsIsAlreadyLost(s: Stage)
    requires Inv(s) && !Running(s) && s.rounds == ROUNDS && s.section % 100 < 10
    ensures s.section / 100 >= 6
  {
    Unpack(s.failed, s.succeeded);
  }

  /**
    The tick that declares the loss does not return: it is the tick after the
    sixth failure, and unless all rounds are used it still sets one more up.
   */
  lemma TheLossSetsUpOneMoreRound(s: Stage, now: nat, draws: seq<nat>)
    requires Inv(s) && !s.over && Enabled(Tick(now, draws))
    requires !Running(s) && s.left != 0 && Add32(s.left, 2) <= now && s.succeeded < 10
    ensures var t := Step(s, Tick(now, draws));
            && (t.over <==> s.failed >= 6)
            && (Running(t) <==> s.rounds < ROUNDS)
            && (Running(t) ==> t.rounds == s.rounds + 1 && t.left == PopCount(t.mask))
  {
    LitIsExact(s.rounds, draws);
    TickKeepsInv(s, now, Lit(s.rounds, draws));
    Unpack(s.failed, s.succeeded);
  }

  /** After the loss no tick changes anything, although the last round set up may still be played out. */
  lemma {:induction false} NothingStartsAfterTheLoss(trace: seq<Stage>, events: seq<Event>, i: nat, j: nat)
    requires Run(trace, events) && i <= j < |trace| && trace[i].over
    ensures trace[j].over && trace[j].rounds == trace[i].rounds
    ensures !Running(trace[i]) ==> trace[j] == trace[i]
    decreases j
  {
    if i < j {
      NothingStartsAfterTheLoss(trace, events, i, j - 1);
      RunKeepsInv(trace, events, j - 1);
    }
  }

  class PuzzleStage {
    var battleSectionData: nat
    var commonFlag1: nat
    var commonFlag2: nat
    var commonFlag3: nat
    var over: bool
    ghost var succeeded: nat
    ghost var failed: nat
    ghost var exhausted: bool

    ghost function State(): Stage
      reads this
    {
      Stage(commonFlag1, commonFlag2, commonFlag3, battleSectionData, over, succeeded, failed, exhausted)
    }

    constructor ()
      ensures State() == INITIAL
    {
      battleSectionData, commonFlag1, commonFlag2, commonFlag3, over := 0, 0, 0, 0, false;
      succeeded, failed, exhausted := 0, 0, false;
    }

    /** Shuffles the twelve cells and lights the first `n`. */
    method LightRound(n: nat, draws: seq<nat>) returns (mask: nat)
      requires |draws| >= CELLS && n <= CELLS
      ensures mask == MaskOf(Shuffled(Identity(CELLS), draws), n)
    {
      var pPos := new nat[CELLS](i => i);
      assert pPos[..] == Identity(CELLS);
      RanPos(pPos, 0, CELLS, 5, draws);
      WholeIsShuffled(Identity(CELLS), draws);
      ghost var cells := pPos[..];
      mask := 0;
      for i := 0 to n
        invariant pPos[..] == cells && mask == MaskOf(cells, i)
      {
        mask := SetOn(mask, pPos[i] + 1);
      }
    }

    method Process(now: nat, draws: seq<nat>)
      requires |draws| >= CELLS
      modifies this
      ensures State() == TickStage(old(State()), now, Lit(old(commonFlag1), draws))
    {
      if over {
        return;
      }
      if (commonFlag3 > 0 && commonFlag3 < 20) || commonFlag2 != 0 {
        return;
      }
      if commonFlag3 == 0 {
        commonFlag3 := Add32(now, 3);
        return;
      }
      if Add32(commonFlag3, 2) > now {
        return;
      } else {
        commonFlag3 := 0;
      }
      if battleSectionData % 100 >= 10 {
        return;
      }
      if battleSectionData / 100 >= 6 {
        over := true;
      }
      if commonFlag1 < ROUNDS {
        if commonFlag1 < 3 {
          commonFlag3 := 3;
        } else if commonFlag1 < 7 {
          commonFlag3 := 4;
        } else if commonFlag1 < 11 {
          commonFlag3 := 5;
        } else {
          commonFlag3 := 6;
        }
        commonFlag2 := LightRound(commonFlag3, draws);
        commonFlag1 := commonFlag1 + 1;
      } else {
        over, exhausted := true, true;
      }
    }

    method HitMechanism(cell: nat, now: nat) returns (x: nat)
      modifies this
      ensures State() == HitStage(old(State()), cell, now) && x == HitAnswer(old(State()), cell)
    {
      if commonFlag3 <= 0 || commonFlag3 > 20 {
        return 0;
      }
      x := 1;
      if cell < CELLS {
        if TestBit(commonFlag2, cell + 1) {
          commonFlag2 := SetOff(commonFlag2, cell + 1);
          commonFlag3 := commonFlag3 - 1;
          if commonFlag2 == 0 {
            battleSectionData := battleSectionData + 1;
            commonFlag3 := now;
            succeeded := succeeded + 1;
          }
        } else {
          commonFlag2 := 0;
          commonFlag3 := now;
          battleSectionData := battleSectionData + 100;
          failed := failed + 1;
          x := 3;
        }
      }
    }
  }
}
