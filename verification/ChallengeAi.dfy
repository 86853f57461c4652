/**
  Dealing AI levels to the monsters of a challenge stage
  (gf/battle_svr/monster.cpp): one array of role codes, and per map a shuffle
  of everything not dealt yet.
 */
module ChallengeAi {
  import opened Shuffle

  /** Capacity of the role array. */
  const CAPACITY := 200

  datatype Ai = Unset | Low | Middle | High | Boss

  /** A monster: its kind never takes a role when `fixed` (type 1). */
  datatype Monster = Monster(fixed: bool, ai: Ai)

  datatype Percent = Percent(low: nat, mid: nat, high: nat, boss: nat)

  function Share(pct: nat, monNum: nat): nat { pct * monNum / 100 }

  function Assigned(p: Percent, monNum: nat): nat {
    Share(p.low, monNum) + Share(p.mid, monNum) + Share(p.high, monNum) + Share(p.boss, monNum)
  }

  /** The AI a role code leaves behind: code 4 selects the boss AI and falls through to the default. */
  function AiOfRole(role: int): Ai {
    if role == 1 then Low else if role == 2 then Middle else High
  }

  function Repeat(role: int, n: nat): (r: seq<int>)
    ensures |r| == n
  {
    seq(n, _ => role)
  }

  /** The role array before any shuffle: low, middle, high and boss codes, then zeroes up to the monster count. */
  function Roles(p: Percent, monNum: nat): (r: seq<int>)
    requires Assigned(p, monNum) <= monNum
    ensures |r| == monNum
  {
    Repeat(1, Share(p.low, monNum)) + Repeat(2, Share(p.mid, monNum)) + Repeat(3, Share(p.high, monNum))
    + Repeat(4, Share(p.boss, monNum)) + Repeat(0, monNum - Assigned(p, monNum))
  }

  /** Number of monsters on maps i, ..., k-1. */
  function Total(maps: seq<seq<Monster>>, i: nat, k: nat): nat
    requires i <= k <= |maps|
    decreases k - i
  {
    if i == k then 0 else |maps[i]| + Total(maps, i + 1, k)
  }

  ghost predicate EnoughDraws(draws: seq<seq<nat>>, maps: seq<seq<Monster>>, monNum: nat) {
    |draws| == |maps| && forall i :: 0 <= i < |draws| ==> monNum <= |draws[i]|
  }

  /** The roles dealt to maps i, ..., k-1 from the undealt `pool`. */
  ghost function Deal(pool: seq<int>, maps: seq<seq<Monster>>, draws: seq<seq<nat>>, i: nat, k: nat): (r: seq<int>)
    requires i <= k <= |maps| && Total(maps, i, k) <= |pool| && EnoughDraws(draws, maps, |pool|)
    ensures |r| == Total(maps, i, k)
    decreases k - i
  {
    if i == k then []
    else
      var shuffled := Shuffled(pool, draws[i]);
      shuffled[..|maps[i]|] + Deal(shuffled[|maps[i]|..], maps, draws, i + 1, k)
  }

  /** The monsters of maps i, ..., k-1 in visiting order. */
  function Monsters(maps: seq<seq<Monster>>, i: nat, k: nat): (r: seq<Monster>)
    requires i <= k <= |maps|
    ensures |r| == Total(maps, i, k)
    decreases k - i
  {
    if i == k then [] else maps[i] + Monsters(maps, i + 1, k)
  }

  /** What one monster ends up with. */
  function Settle(m: Monster, role: int): Ai {
    if m.fixed then m.ai else AiOfRole(role)
  }

  ghost function SettleAll(ms: seq<Monster>, roles: seq<int>): (r: seq<Ai>)
    requires |ms| == |roles|
    ensures |r| == |ms| && forall i :: 0 <= i < |r| ==> r[i] == Settle(ms[i], roles[i])
  {
    seq(|ms|, i requires 0 <= i < |ms| => Settle(ms[i], roles[i]))
  }

  method FillRoles(p: Percent, monNum: nat) returns (ptr: array<int>)
    requires Assigned(p, monNum) <= monNum <= CAPACITY
    ensures fresh(ptr) && ptr.Length == CAPACITY && ptr[..monNum] == Roles(p, monNum)
  {
    var low, mid := Share(p.low, monNum), Share(p.mid, monNum);
    var high, boss := Share(p.high, monNum), Share(p.boss, monNum);
    ptr := new int[CAPACITY](_ => 0);
    for i := 0 to low
      invariant forall k :: 0 <= k < CAPACITY ==> ptr[k] == if k < i then 1 else 0
    {
      ptr[i] := 1;
    }
    for i := 0 to mid
      invariant forall k :: 0 <= k < CAPACITY ==> ptr[k] == if k < low then 1 else if k < low + i then 2 else 0
    {
      ptr[i + low] := 2;
    }
    for i := 0 to high
      invariant forall k :: 0 <= k < CAPACITY ==> ptr[k] == if k < low then 1 else if k < low + mid then 2
                                                         else if k < low + mid + i then 3 else 0
    {
      ptr[i + low + mid] := 3;
    }
    for i := 0 to boss
      invariant forall k :: 0 <= k < CAPACITY ==> ptr[k] == if k < low then 1 else if k < low + mid then 2
                                                         else if k < low + mid + high then 3
                                                         else if k < low + mid + high + i then 4 else 0
    {
      ptr[i + low + mid + high] := 4;
    }
  }

  /** The monsters of one map take the roles at `from` onwards, in order. */
  method SettleMap(ptr: array<int>, from: nat, ms: seq<Monster>) returns (ais: seq<Ai>)
    requires from + |ms| <= ptr.Length
    ensures ais == SettleAll(ms, ptr[from..from + |ms|])
  {
    ais := [];
    for j := 0 to |ms|
      invariant |ais| == j
      invariant forall k :: 0 <= k < j ==> ais[k] == Settle(ms[k], ptr[from + k])
    {
      var ai := ms[j].ai;
      if !ms[j].fixed {
        match ptr[from + j] {
          case 1 => ai := Low;
          case 2 => ai := Middle;
          case 3 => ai := High;
          case 4 => ai := Boss; ai := High;
          case _ => ai := High;
        }
      }
      ais := ais + [ai];
    }
  }

  /** A shuffle of the undealt part of the array, and the share that the next map takes of it. */
  lemma ShareOfShuffle(dealt: seq<int>, pool: seq<int>, behind: seq<int>, n: nat, draws: seq<nat>)
    requires n <= |pool| <= |draws|
    ensures var r := ShuffledPart(dealt + pool + behind, |dealt|, |dealt| + |pool|, draws);
            && r == dealt + Shuffled(pool, draws) + behind
            && r == (dealt + Shuffled(pool, draws)[..n]) + Shuffled(pool, draws)[n..] + behind
            && r[|dealt|..|dealt| + n] == Shuffled(pool, draws)[..n]
  {
    var all := dealt + pool + behind;
    assert all[..|dealt|] == dealt && all[|dealt|..|dealt| + |pool|] == pool && all[|dealt| + |pool|..] == behind;
    SplitMiddle(dealt, Shuffled(pool, draws), behind, n);
  }

  lemma SplitMiddle(a: seq<int>, b: seq<int>, c: seq<int>, n: nat)
    requires n <= |b|
    ensures a + b + c == (a + b[..n]) + b[n..] + c && (a + b + c)[|a|..|a| + n] == b[..n]
  {
  }

  /**
    Shuffles the undealt cells and deals the first of them to one map; the cells
    dealt before, and those behind the monster count, stay as they were.
   */
  method DealMap(ptr: array<int>, curIdx: nat, monNum: nat, ms: seq<Monster>, draws: seq<nat>,
                 ghost dealt: seq<int>, ghost pool: seq<int>, ghost behind: seq<int>)
    returns (taken: seq<int>, ais: seq<Ai>)
    requires |dealt| == curIdx && curIdx + |ms| <= curIdx + |pool| == monNum && |pool| <= |draws|
    requires ptr[..] == dealt + pool + behind
    modifies ptr
    ensures taken == Shuffled(pool, draws)[..|ms|]
    ensures ptr[..] == (dealt + taken) + Shuffled(pool, draws)[|ms|..] + behind
    ensures ais == SettleAll(ms, taken)
  {
    ShareOfShuffle(dealt, pool, behind, |ms|, draws);
    RanPos(ptr, curIdx, monNum - curIdx, |ms|, draws);
    ais := SettleMap(ptr, curIdx, ms);
    taken := ptr[curIdx..curIdx + |ms|];
    assert taken == ptr[..][curIdx..curIdx + |ms|];
  }

  /** One map's turn: what is dealt so far grows by the map's share, what is left to deal shrinks by it. */
  lemma DealTurn(dealt: seq<int>, pool: seq<int>, maps: seq<seq<Monster>>, draws: seq<seq<nat>>, i: nat)
    requires i < |maps|
    requires Total(maps, i, |maps|) <= |pool| && EnoughDraws(draws, maps, |pool|)
    ensures var shuffled, n := Shuffled(pool, draws[i]), |maps[i]|;
            && n + Total(maps, i + 1, |maps|) == Total(maps, i, |maps|)
            && dealt + Deal(pool, maps, draws, i, |maps|)
            == (dealt + shuffled[..n]) + Deal(shuffled[n..], maps, draws, i + 1, |maps|)
  {
  }

  lemma MonstersTurn(dealt: seq<int>, met: seq<Monster>, maps: seq<seq<Monster>>, i: nat, taken: seq<int>)
    requires i < |maps| && |dealt| == |met| && |taken| == |maps[i]|
    ensures met + Monsters(maps, i, |maps|) == (met + maps[i]) + Monsters(maps, i + 1, |maps|)
    ensures SettleAll(met + maps[i], dealt + taken) == SettleAll(met, dealt) + SettleAll(maps[i], taken)
  {
  }

  /** Map after map: in the end the array still starts with every role in the order it was dealt. */
  method DealMaps(ptr: array<int>, monNum: nat, maps: seq<seq<Monster>>, draws: seq<seq<nat>>, ghost start: seq<int>)
    returns (roles: seq<int>, ais: seq<Ai>)
    requires monNum <= ptr.Length && start == ptr[..monNum]
    requires Total(maps, 0, |maps|) <= monNum && EnoughDraws(draws, maps, monNum)
    modifies ptr
    ensures roles == Deal(start, maps, draws, 0, |maps|)
    ensures |roles| <= monNum && ptr[..|roles|] == roles && ptr[monNum..] == old(ptr[monNum..])
    ensures ais == SettleAll(Monsters(maps, 0, |maps|), roles)
  {
    roles, ais := [], [];
    var curIdx := 0;
    ghost var pool, met: seq<Monster>, behind := start, [], ptr[monNum..];
    ghost var target := Deal(start, maps, draws, 0, |maps|);
    for i := 0 to |maps|
      invariant curIdx == |roles| == |met| && curIdx + |pool| == monNum && Total(maps, i, |maps|) <= |pool|
      invariant ptr[..] == roles + pool + behind
      invariant roles + Deal(pool, maps, draws, i, |maps|) == target
      invariant met + Monsters(maps, i, |maps|) == Monsters(maps, 0, |maps|)
      invariant ais == SettleAll(met, roles)
    {
      var taken, settled := DealMap(ptr, curIdx, monNum, maps[i], draws[i], roles, pool, behind);
      DealTurn(roles, pool, maps, draws, i);
      MonstersTurn(roles, met, maps, i, taken);
      pool := Shuffled(pool, draws[i])[|maps[i]|..];
      roles, ais, met := roles + taken, ais + settled, met + maps[i];
      curIdx := curIdx + |maps[i]|;
    }
    PartsOfThree(roles, pool, behind);
    assert ptr[..|roles|] == ptr[..][..|roles|] && ptr[monNum..] == ptr[..][monNum..];
  }

  lemma PartsOfThree(a: seq<int>, b: seq<int>, c: seq<int>)
    ensures (a + b + c)[..|a|] == a && (a + b + c)[|a| + |b|..] == c
  {
  }

  /**
    Assigns the AI of every monster of every map and reports the role codes in
    the order they were dealt. Nothing changes when no role is configured.
   */
  method UpdateChallengeAi(p: Percent, monNum: nat, maps: seq<seq<Monster>>, draws: seq<seq<nat>>)
    returns (roles: seq<int>, ais: seq<Ai>)
    requires Assigned(p, monNum) <= monNum <= CAPACITY
    requires Total(maps, 0, |maps|) <= monNum && EnoughDraws(draws, maps, monNum)
    ensures Assigned(p, monNum) == 0 ==> roles == [] && ais == []
    ensures Assigned(p, monNum) > 0 ==>
              && roles == Deal(Roles(p, monNum), maps, draws, 0, |maps|)
              && ais == SettleAll(Monsters(maps, 0, |maps|), roles)
  {
    if Assigned(p, monNum) == 0 {
      return [], [];
    }
    var ptr := FillRoles(p, monNum);
    roles, ais := DealMaps(ptr, monNum, maps, draws, Roles(p, monNum));
  }

  /** Percentages that sum to at most 100 always fit, whatever the monster count. */
  lemma PercentagesFit(p: Percent, monNum: nat)
    requires p.low + p.mid + p.high + p.boss <= 100
    ensures Assigned(p, monNum) <= monNum
  {
    var l, m, h, b := p.low * monNum, p.mid * monNum, p.high * monNum, p.boss * monNum;
    assert l + m + h + b == (p.low + p.mid + p.high + p.boss) * monNum;
    assert (p.low + p.mid + p.high + p.boss) * monNum <= 100 * monNum;
  }

  /** Conservation: what is dealt together with some leftover is exactly the pool. */
  lemma {:induction false} DealIsSubPermutation(pool: seq<int>, maps: seq<seq<Monster>>, draws: seq<seq<nat>>,
                                            i: nat, k: nat)
    requires i <= k <= |maps| && Total(maps, i, k) <= |pool| && EnoughDraws(draws, maps, |pool|)
    ensures multiset(Deal(pool, maps, draws, i, k)) <= multiset(pool)
    decreases k - i
  {
    if i < k {
      var shuffled, n := Shuffled(pool, draws[i]), |maps[i]|;
      ShuffledIsPermutation(pool, draws[i]);
      DealIsSubPermutation(shuffled[n..], maps, draws, i + 1, k);
      assert shuffled == shuffled[..n] + shuffled[n..];
    }
  }

  lemma SubMultisetOfSameSize(a: multiset<int>, b: multiset<int>)
    requires a <= b && |a| == |b|
    ensures a == b
  {
    assert b == a + (b - a);
    assert |b - a| == 0;
  }

  lemma {:induction false} CountRepeat(role: int, n: nat, x: int)
    ensures multiset(Repeat(role, n))[x] == if x == role then n else 0
    decreases n
  {
    if n > 0 {
      CountRepeat(role, n - 1, x);
      assert Repeat(role, n) == Repeat(role, n - 1) + [role];
    }
  }

  lemma CountOfRole(p: Percent, monNum: nat, x: int)
    requires Assigned(p, monNum) <= monNum
    ensures multiset(Roles(p, monNum))[x] ==
              if x == 1 then Share(p.low, monNum) else if x == 2 then Share(p.mid, monNum)
              else if x == 3 then Share(p.high, monNum) else if x == 4 then Share(p.boss, monNum)
              else if x == 0 then monNum - Assigned(p, monNum) else 0
  {
    CountRepeat(1, Share(p.low, monNum), x);
    CountRepeat(2, Share(p.mid, monNum), x);
    CountRepeat(3, Share(p.high, monNum), x);
    CountRepeat(4, Share(p.boss, monNum), x);
    CountRepeat(0, monNum - Assigned(p, monNum), x);
  }

  /**
    Conservation over all maps: when the map sizes sum to the monster count,
    every configured role is dealt exactly as often as configured, for every
    random outcome.
   */
  lemma RolesMatchConfiguration(p: Percent, monNum: nat, maps: seq<seq<Monster>>, draws: seq<seq<nat>>)
    requires Assigned(p, monNum) <= monNum && Total(maps, 0, |maps|) == monNum && EnoughDraws(draws, maps, monNum)
    ensures multiset(Deal(Roles(p, monNum), maps, draws, 0, |maps|)) == multiset(Roles(p, monNum))
    ensures var dealt := multiset(Deal(Roles(p, monNum), maps, draws, 0, |maps|));
            && dealt[1] == Share(p.low, monNum) && dealt[2] == Share(p.mid, monNum)
            && dealt[3] == Share(p.high, monNum) && dealt[4] == Share(p.boss, monNum)
            && dealt[0] == monNum - Assigned(p, monNum)
  {
    var pool := Roles(p, monNum);
    DealIsSubPermutation(pool, maps, draws, 0, |maps|);
    SubMultisetOfSameSize(multiset(Deal(pool, maps, draws, 0, |maps|)), multiset(pool));
    CountOfRole(p, monNum, 0);
    CountOfRole(p, monNum, 1);
    CountOfRole(p, monNum, 2);
    CountOfRole(p, monNum, 3);
    CountOfRole(p, monNum, 4);
  }

  /** Is `n` the whole part of `pct` per cent of `all`? */
  predicate IsPercentage(n: nat, pct: nat, all: nat) { 100 * n <= pct * all < 100 * n + 100 }

  /** Each role is dealt to the whole part of its percentage of the monsters, for every random outcome. */
  lemma RolesArePercentages(p: Percent, monNum: nat, maps: seq<seq<Monster>>, draws: seq<seq<nat>>)
    requires Assigned(p, monNum) <= monNum && Total(maps, 0, |maps|) == monNum && EnoughDraws(draws, maps, monNum)
    ensures var dealt := multiset(Deal(Roles(p, monNum), maps, draws, 0, |maps|));
            && IsPercentage(dealt[1], p.low, monNum) && IsPercentage(dealt[2], p.mid, monNum)
            && IsPercentage(dealt[3], p.high, monNum) && IsPercentage(dealt[4], p.boss, monNum)
            && dealt[0] == monNum - dealt[1] - dealt[2] - dealt[3] - dealt[4]
  {
    RolesMatchConfiguration(p, monNum, maps, draws);
    ShareIsPercentage(p.low, monNum);
    ShareIsPercentage(p.mid, monNum);
    ShareIsPercentage(p.high, monNum);
    ShareIsPercentage(p.boss, monNum);
  }

  lemma ShareIsPercentage(pct: nat, monNum: nat)
    ensures IsPercentage(Share(pct, monNum), pct, monNum)
  {
  }

  // ---- What the monsters end up with -----------------------------------

  /** Monsters among these that keep their own AI. */
  function CountFixed(ms: seq<Monster>): nat {
    if ms == [] then 0 else CountFixed(ms[..|ms| - 1]) + (if ms[|ms| - 1].fixed then 1 else 0)
  }

  /** Monsters that a role gave the AI `ai`. */
  function CountGiven(ms: seq<Monster>, ais: seq<Ai>, ai: Ai): nat
    requires |ms| == |ais|
  {
    if ms == [] then 0
    else
      var n := |ms| - 1;
      CountGiven(ms[..n], ais[..n], ai) + (if !ms[n].fixed && ais[n] == ai then 1 else 0)
  }

  /** Roles 1 and 2 give the low and the middle AI, and every other one, the boss role 4 included, the high AI. */
  lemma RolesDecide(ms: seq<Monster>, roles: seq<int>, i: nat)
    requires |ms| == |roles| && i < |ms|
    ensures SettleAll(ms, roles)[i] ==
              if ms[i].fixed then ms[i].ai
              else match roles[i]
                case 1 => Low
                case 2 => Middle
                case _ => High
  {
  }

  /** One AI against the roles that lead to it: the difference is at most the monsters that are fixed. */
  lemma {:induction false} GivenAgainstDealt(ms: seq<Monster>, roles: seq<int>)
    requires |ms| == |roles|
    ensures var ais, f, dealt := SettleAll(ms, roles), CountFixed(ms), multiset(roles);
            && CountGiven(ms, ais, Low) <= dealt[1] <= CountGiven(ms, ais, Low) + f
            && CountGiven(ms, ais, Middle) <= dealt[2] <= CountGiven(ms, ais, Middle) + f
            && CountGiven(ms, ais, Low) + CountGiven(ms, ais, Middle) + CountGiven(ms, ais, High) + f == |ms|
            && CountGiven(ms, ais, Boss) == 0 && CountGiven(ms, ais, Unset) == 0
    decreases |ms|
  {
    if ms != [] {
      var n := |ms| - 1;
      GivenAgainstDealt(ms[..n], roles[..n]);
      assert roles == roles[..n] + [roles[n]];
      assert SettleAll(ms, roles)[..n] == SettleAll(ms[..n], roles[..n]);
    }
  }

  /** With nobody fixed, every monster got its AI from a role. */
  lemma {:induction false} GivenIsAll(ms: seq<Monster>, ais: seq<Ai>, ai: Ai)
    requires |ms| == |ais| && CountFixed(ms) == 0
    ensures CountGiven(ms, ais, ai) == multiset(ais)[ai]
    decreases |ms|
  {
    if ms != [] {
      var n := |ms| - 1;
      GivenIsAll(ms[..n], ais[..n], ai);
      assert ais == ais[..n] + [ais[n]];
    }
  }

  /**
    What the fall-through of code 4 does to a stage, for every draw: the low and
    the middle share come out as configured, up to the fixed monsters their
    roles were spent on, and everybody else ends on the high AI, the boss share
    and the monsters without a role included.
   */
  lemma AisMatchConfiguration(p: Percent, monNum: nat, maps: seq<seq<Monster>>, draws: seq<seq<nat>>)
    requires Assigned(p, monNum) <= monNum && Total(maps, 0, |maps|) == monNum && EnoughDraws(draws, maps, monNum)
    ensures var ms := Monsters(maps, 0, |maps|);
            var ais, f := SettleAll(ms, Deal(Roles(p, monNum), maps, draws, 0, |maps|)), CountFixed(ms);
            && CountGiven(ms, ais, Low) <= Share(p.low, monNum) <= CountGiven(ms, ais, Low) + f
            && CountGiven(ms, ais, Middle) <= Share(p.mid, monNum) <= CountGiven(ms, ais, Middle) + f
            && CountGiven(ms, ais, High) == monNum - f - CountGiven(ms, ais, Low) - CountGiven(ms, ais, Middle)
            && CountGiven(ms, ais, Boss) == 0
    ensures var ms := Monsters(maps, 0, |maps|);
            var ais := multiset(SettleAll(ms, Deal(Roles(p, monNum), maps, draws, 0, |maps|)));
            CountFixed(ms) == 0 ==>
              && ais[Low] == Share(p.low, monNum) && ais[Middle] == Share(p.mid, monNum)
              && ais[High] == monNum - Share(p.low, monNum) - Share(p.mid, monNum) && ais[Boss] == 0
  {
    var ms, roles := Monsters(maps, 0, |maps|), Deal(Roles(p, monNum), maps, draws, 0, |maps|);
    var ais := SettleAll(ms, roles);
    RolesMatchConfiguration(p, monNum, maps, draws);
    GivenAgainstDealt(ms, roles);
    if CountFixed(ms) == 0 {
      GivenIsAll(ms, ais, Low);
      GivenIsAll(ms, ais, Middle);
      GivenIsAll(ms, ais, High);
      GivenIsAll(ms, ais, Boss);
    }
  }
}
