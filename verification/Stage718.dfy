/**
  Stage 718: fifty sections of monsters around a lamp that must survive
  (gf/battle_svr/battle_logic.cpp).
 */
module Stage718 {
  import opened Sequences
  import opened Words

  const SECTIONS := 50

  /**
    The battle's counters. `calls` is history: the sections whose monsters
    were called, in order; `remaining` is the monster count seen at the victory.
   */
  datatype Stage = Stage(section: nat, stamp: nat, started: bool, over: bool, won: bool,
                         calls: seq<nat>, remaining: nat)

  const INITIAL := Stage(0, 0, false, false, false, [], 0)

  /** What one tick sees: the clock, whether a player and the living lamp are there, and the monsters on the map. */
  datatype Tick = Tick(now: nat, present: bool, lampAlive: bool, monsters: nat)

  /** `call_lamp_monster` ignores sections outside 1..50. */
  function Call(s: Stage, section: nat): Stage {
    if section > SECTIONS || section == 0 then s else s.(calls := s.calls + [section])
  }

  /** `process_battle_718_logic`. */
  function Process(s: Stage, t: Tick): Stage {
    if s.over || !t.present then s
    else if !t.lampAlive then s.(over := true)
    else if s.section == 0 then
      if s.stamp == 0 then s.(stamp := t.now)
      else if !s.started && Sub32(t.now, s.stamp) > 2 then
        Call(s.(started := true, section := s.section + 1, stamp := t.now), s.section + 1)
      else s
    else if s.started then
      if s.section == SECTIONS then
        if t.monsters == 1 then s.(section := s.section + 1, over := true, won := true, remaining := t.monsters) else s
      else if Sub32(t.now, s.stamp) > 30 || t.monsters == 1 then
        s.(started := false, stamp := t.now, section := s.section + 1)
      else s
    else if Sub32(t.now, s.stamp) > 2 then Call(s.(started := true, stamp := t.now), s.section)
    else s
  }

  function Played(ticks: seq<Tick>): Stage {
    if ticks == [] then INITIAL else Process(Played(ticks[..|ticks| - 1]), ticks[|ticks| - 1])
  }

  predicate Inv(s: Stage) {
    && s.section <= SECTIONS + 1
    && s.calls == UpTo(if s.section == 0 then 0
                       else if s.section > SECTIONS then SECTIONS
                       else if s.started then s.section else s.section - 1)
    && (s.section == 0 ==> !s.started)
    && (s.won <==> s.section == SECTIONS + 1)
    && (s.won ==> s.over && s.remaining == 1)
  }

  lemma ProcessKeepsInv(s: Stage, t: Tick)
    requires Inv(s)
    ensures Inv(Process(s, t))
  {
  }

  /**
    In every run the called sections are 1, 2, 3, ... with no skip and no
    repeat, and a victory means that all fifty were called and one monster, the
    lamp, was left.
   */
  lemma {:induction false} SectionsComeInOrder(ticks: seq<Tick>)
    ensures var s := Played(ticks);
            && Inv(s) && s.calls == UpTo(|s.calls|) && |s.calls| <= 50
            && (s.won ==> s.calls == UpTo(50) && s.remaining == 1)
    decreases |ticks|
  {
    if ticks != [] {
      SectionsComeInOrder(ticks[..|ticks| - 1]);
      ProcessKeepsInv(Played(ticks[..|ticks| - 1]), ticks[|ticks| - 1]);
    }
  }

  // ---- What a tick decides ---------------------------------------------

  /** A section runs and a tick sees it end: by its thirty seconds, or with only the lamp left. The last has no time. */
  predicate Ends(s: Stage, t: Tick) {
    s.started && (t.monsters == 1 || (s.section < SECTIONS && Sub32(t.now, s.stamp) > 30))
  }

  /** No section runs, the clock was read before, and more than two seconds went by. */
  predicate Starts(s: Stage, t: Tick) {
    !s.started && (s.section > 0 || s.stamp != 0) && Sub32(t.now, s.stamp) > 2
  }

  /**
    What a tick decides: a dead lamp loses; otherwise a running section ends or
    goes on, the end of the fiftieth wins, and a break ends with the next section.
   */
  lemma TickDecides(s: Stage, t: Tick)
    requires Inv(s) && !s.over
    ensures var r := Process(s, t);
            && (!t.present ==> r == s)
            && (t.present && !t.lampAlive ==> r == s.(over := true))
            && (t.present && t.lampAlive ==>
                  && r.calls == (if Starts(s, t) then s.calls + [|s.calls| + 1] else s.calls)
                  && (r.started <==> Starts(s, t) || (s.started && (!Ends(s, t) || s.section == SECTIONS)))
                  && (r.won <==> Ends(s, t) && s.section == SECTIONS) && (r.over <==> r.won)
                  && r.section == (if Ends(s, t) || (Starts(s, t) && s.section == 0) then s.section + 1 else s.section)
                  && r.stamp == (if Starts(s, t) || (Ends(s, t) && s.section < SECTIONS)
                                    || (s.section == 0 && s.stamp == 0) then t.now else s.stamp))
  {
    assert UpTo(|s.calls| + 1) == UpTo(|s.calls|) + [|s.calls| + 1];
  }

  /** Some tick saw the lamp dead before the victory. */
  ghost predicate LampDied(ticks: seq<Tick>) {
    exists i :: 0 <= i < |ticks| && ticks[i].present && !ticks[i].lampAlive && !Played(ticks[..i]).won
  }

  /** A run is lost exactly if some tick saw the lamp dead before the victory, and then nothing changes any more. */
  lemma {:induction false} LostIffTheLampDied(ticks: seq<Tick>)
    ensures Played(ticks).over && !Played(ticks).won <==> LampDied(ticks)
    decreases |ticks|
  {
    if ticks != [] {
      var n := |ticks| - 1;
      var before := ticks[..n];
      LostIffTheLampDied(before);
      SectionsComeInOrder(before);
      if !Played(before).over {
        TickDecides(Played(before), ticks[n]);
      }
      assert forall i :: 0 <= i < n ==> ticks[..i] == before[..i] && ticks[i] == before[i];
      if LampDied(ticks) && !LampDied(before) {
        var i :| 0 <= i < |ticks| && ticks[i].present && !ticks[i].lampAlive && !Played(ticks[..i]).won;
        assert i == n;
      }
    }
  }

  function PlayOn(s: Stage, ticks: seq<Tick>): Stage
    decreases |ticks|
  {
    if ticks == [] then s else PlayOn(Process(s, ticks[0]), ticks[1..])
  }

  /** The stage never gets stuck: from every state that is not over some ticks lead to victory. */
  lemma {:induction false} VictoryStaysPossible(s: Stage) returns (ticks: seq<Tick>)
    requires Inv(s) && !s.over
    ensures PlayOn(s, ticks).won
    decreases 3 * SECTIONS - 2 * s.section - (if s.started then 1 else 0) - (if s.stamp != 0 then 1 else 0)
  {
    var t := Tick(s.stamp + 31, true, true, 1);
    TickDecides(s, t);
    ProcessKeepsInv(s, t);
    assert Sub32(t.now, s.stamp) == 31;
    var r := Process(s, t);
    if r.won {
      ticks := [t];
      assert ticks[1..] == [];
    } else {
      var rest := VictoryStaysPossible(r);
      ticks := [t] + rest;
      assert ticks[1..] == rest;
    }
  }

  const BOSS_BASE := 13165

  /** The bosses among the monsters of the given sections: one on every fifth. */
  function Bosses(sections: seq<nat>): seq<nat> {
    if sections == [] then []
    else
      var n := |sections| - 1;
      Bosses(sections[..n]) + (if sections[n] % 5 == 0 then [BOSS_BASE + sections[n] / 5 - 1] else [])
  }

  lemma {:induction false} BossesUpTo(n: nat)
    ensures Bosses(UpTo(n)) == seq(n / 5, i => BOSS_BASE + i)
    decreases n
  {
    if n > 0 {
      BossesUpTo(n - 1);
      assert UpTo(n)[..n - 1] == UpTo(n - 1);
      if n % 5 == 0 {
        assert n / 5 == (n - 1) / 5 + 1;
        assert seq(n / 5, i => BOSS_BASE + i) == seq((n - 1) / 5, i => BOSS_BASE + i) + [BOSS_BASE + (n - 1) / 5];
      } else {
        assert n / 5 == (n - 1) / 5;
      }
    }
  }

  /** A victorious run has called each of the ten bosses exactly once, in order. */
  lemma VictoryMeetsEveryBossOnce(ticks: seq<Tick>)
    requires Played(ticks).won
    ensures Bosses(Played(ticks).calls) == seq(10, i => BOSS_BASE + i)
  {
    SectionsComeInOrder(ticks);
    BossesUpTo(SECTIONS);
  }

  class PuzzleStage {
    var commonFlag1: nat
    var commonFlag2: nat
    var commonFlag3: bool
    var over: bool
    var won: bool
    ghost var calls: seq<nat>
    ghost var remaining: nat

    ghost function State(): Stage
      reads this
    {
      Stage(commonFlag1, commonFlag2, commonFlag3, over, won, calls, remaining)
    }

    constructor ()
      ensures State() == INITIAL
    {
      commonFlag1, commonFlag2, commonFlag3, over, won := 0, 0, false, false, false;
      calls, remaining := [], 0;
    }

    method CallLampMonster(section: nat)
      modifies this`calls
      ensures State() == Call(old(State()), section)
    {
      if section > SECTIONS || section == 0 {
        return;
      }
      calls := calls + [section];
    }

    method ProcessTick(t: Tick)
      modifies this
      ensures State() == Process(old(State()), t)
    {
      if over || !t.present {
        return;
      }
      if !t.lampAlive {
        over := true;
        return;
      }
      if commonFlag1 == 0 {
        if commonFlag2 == 0 {
          commonFlag2 := t.now;
        } else if !commonFlag3 {
          if Sub32(t.now, commonFlag2) > 2 {
            commonFlag3 := true;
            commonFlag1 := commonFlag1 + 1;
            commonFlag2 := t.now;
            CallLampMonster(commonFlag1);
          }
        }
      } else if commonFlag3 {
        if commonFlag1 == SECTIONS {
          if t.monsters == 1 {
            commonFlag1 := commonFlag1 + 1;
            over, won, remaining := true, true, t.monsters;
          }
          return;
        }
        if Sub32(t.now, commonFlag2) > 30 || t.monsters == 1 {
          commonFlag3 := false;
          commonFlag2 := t.now;
          commonFlag1 := commonFlag1 + 1;
        }
      } else {
        if Sub32(t.now, commonFlag2) > 2 {
          commonFlag3 := true;
          commonFlag2 := t.now;
          CallLampMonster(commonFlag1);
        }
      }
    }
  }
}
