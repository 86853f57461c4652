/**
  The outer loop of proc_cached_pkgs (gf/battle_svr/cli_proto.cpp): it walks
  the players awaiting a drain and saves the next list position before it
  drains the current one, while handlers may delete players from the list.
 */
module AwaitingList {
  import opened CommandQueue
  import opened Sequences

  /** The list as deleting players leaves it: each one takes itself out. */
  function Alive(players: map<Uid, Player>, list: seq<Uid>): (r: seq<Uid>)
    ensures |r| <= |list|
    ensures forall u :: u in r <==> u in list && u in players
  {
    if list == [] then [] else (if list[0] in players then [list[0]] else []) + Alive(players, list[1..])
  }

  /** The list keeps its order. */
  lemma {:induction false} AliveOfParts(players: map<Uid, Player>, a: seq<Uid>, b: seq<Uid>)
    ensures Alive(players, a + b) == Alive(players, a) + Alive(players, b)
    decreases |a|
  {
    if a == [] {
      assert a + b == b;
    } else {
      assert (a + b)[1..] == a[1..] + b;
      AliveOfParts(players, a[1..], b);
    }
  }

  lemma AliveOfOne(players: map<Uid, Player>, u: Uid)
    ensures Alive(players, [u]) == if u in players then [u] else []
  {
    assert [u][1..] == [];
  }

  /** The players deleted while `u` is drained, by the handlers that are called in that drain. */
  function DrainDeletes(w: World, u: Uid, hs: seq<Handler>): set<Uid>
    decreases |hs|
  {
    if u !in w.players || w.players[u].wait != 0 || w.players[u].queue == [] || hs == [] then {}
    else
      var (t, err) := Turn(w, u, hs[0]);
      TurnDeletes(w, u, hs[0])
      + (if u in t.players && !err && t.players[u].queue != [] then DrainDeletes(t, u, hs[1..]) else {})
  }

  /**
    How the walk ends: at the end of the list, at a saved position whose player is
    gone, or at a package that is not there.
   */
  datatype Ending = Finished | Dangling | Missing

  datatype Scanned = Scanned(world: World, ending: Ending)

  /**
    The walk over `list`, which starts at the current player; `hss` gives every
    player's handler outcomes.
   */
  function Scan(w: World, list: seq<Uid>, hss: seq<seq<Handler>>): Scanned
    decreases |list|
  {
    if list == [] || hss == [] then Scanned(w, Finished)
    else
      var t := Drain(w, list[0], hss[0]);
      if FindsNothing(w, list[0]) then Scanned(t, Missing)
      else if |list| > 1 && list[1] !in t.players then Scanned(t, Dangling)
      else Scan(t, Alive(t.players, list[1..]), hss[1..])
  }

  /** The list holds linked players, each once. */
  ghost predicate Listed(w: World, list: seq<Uid>) {
    Distinct(list) && forall u :: u in list ==> u in w.players && w.players[u].linked
  }

  /**
    The saved position stays good exactly if no handler called in this turn
    deletes the next player; and then that player waits there unchanged.
   */
  lemma {:induction false} SavedPositionStaysGoodIff(w: World, u: Uid, hs: seq<Handler>, v: Uid)
    requires Inv(w) && u in w.players && w.players[u].linked && v in w.players && v != u
    ensures v in Drain(w, u, hs).players <==> v !in DrainDeletes(w, u, hs)
    ensures v in Drain(w, u, hs).players ==> Drain(w, u, hs).players[v] == w.players[v]
    decreases |hs|
  {
    if w.players[u].wait == 0 && w.players[u].queue != [] && hs != [] {
      OneTurn(w, u, hs[0]);
      TurnLeavesOthersAlone(w, u, hs[0]);
      var (t, err) := Turn(w, u, hs[0]);
      if u in t.players && !err && t.players[u].queue != [] {
        if v in t.players {
          SavedPositionStaysGoodIff(t, u, hs[1..], v);
        } else {
          DrainAddsNobody(t, u, hs[1..], v);
        }
      }
    }
  }

  lemma {:induction false} DrainAddsNobody(w: World, u: Uid, hs: seq<Handler>, v: Uid)
    requires Inv(w) && u in w.players && w.players[u].linked && v !in w.players
    ensures v !in Drain(w, u, hs).players
    decreases |hs|
  {
    if w.players[u].wait == 0 && w.players[u].queue != [] && hs != [] {
      OneTurn(w, u, hs[0]);
      TurnLeavesOthersAlone(w, u, hs[0]);
      var (t, err) := Turn(w, u, hs[0]);
      if u in t.players && !err && t.players[u].queue != [] {
        DrainAddsNobody(t, u, hs[1..], v);
      }
    }
  }

  lemma {:induction false} AliveIsDistinct(players: map<Uid, Player>, list: seq<Uid>)
    requires Distinct(list)
    ensures Distinct(Alive(players, list))
    decreases |list|
  {
    if list != [] {
      AliveIsDistinct(players, list[1..]);
      assert list[0] !in list[1..];
    }
  }

  /** After a turn the rest of the list still holds linked players, each once. */
  lemma RestIsListed(w: World, list: seq<Uid>, hs: seq<Handler>)
    requires Inv(w) && list != [] && Listed(w, list)
    ensures var t := Drain(w, list[0], hs); Listed(t, Alive(t.players, list[1..])) && Inv(t) && FatesKept(w, t)
  {
    var u := list[0];
    assert u in list;
    var t := Drain(w, u, hs);
    DrainKeepsInv(w, u, hs);
    AliveIsDistinct(t.players, list[1..]);
    forall v | v in list[1..]
      ensures v in t.players ==> t.players[v].linked
    {
      assert v in list && v != u;
      SavedPositionStaysGoodIff(w, u, hs, v);
    }
  }

  /** Does some turn of the walk call a handler that deletes the player the walk would go to next? */
  ghost predicate SomeTurnDeletesTheNext(w: World, list: seq<Uid>, hss: seq<seq<Handler>>)
    decreases |list|
  {
    list != [] && hss != [] && !FindsNothing(w, list[0])
    && ((|list| > 1 && list[1] in DrainDeletes(w, list[0], hss[0]))
        || (var t := Drain(w, list[0], hss[0]); SomeTurnDeletesTheNext(t, Alive(t.players, list[1..]), hss[1..])))
  }

  /**
    The walk keeps the invariant of all queues, and it steps to a dangling
    position exactly if some turn deletes the player next in line.
   */
  lemma {:induction false} ScanDanglesIff(w: World, list: seq<Uid>, hss: seq<seq<Handler>>)
    requires Inv(w) && Listed(w, list)
    ensures Inv(Scan(w, list, hss).world) && FatesKept(w, Scan(w, list, hss).world)
    ensures Scan(w, list, hss).ending == Dangling <==> SomeTurnDeletesTheNext(w, list, hss)
    decreases |list|
  {
    if list != [] && hss != [] {
      var t := Drain(w, list[0], hss[0]);
      RestIsListed(w, list, hss[0]);
      if |list| > 1 {
        assert list[0] in list && list[1] in list && list[0] != list[1];
        SavedPositionStaysGoodIff(w, list[0], hss[0], list[1]);
      }
      ScanDanglesIff(t, Alive(t.players, list[1..]), hss[1..]);
    }
  }

  /** The walk leaves a player that is not on its list alone, or deletes it, and adds nobody. */
  lemma {:induction false} WalkLeavesOthersAlone(w: World, list: seq<Uid>, hss: seq<seq<Handler>>, v: Uid)
    requires Inv(w) && Listed(w, list) && v !in list
    ensures var t := Scan(w, list, hss).world; v in t.players ==> v in w.players && t.players[v] == w.players[v]
    decreases |list|
  {
    if list != [] && hss != [] {
      var t := Drain(w, list[0], hss[0]);
      RestIsListed(w, list, hss[0]);
      DrainLeavesOthersAlone(w, list, hss[0], v);
      WalkLeavesOthersAlone(t, Alive(t.players, list[1..]), hss[1..], v);
    }
  }

  lemma DrainLeavesOthersAlone(w: World, list: seq<Uid>, hs: seq<Handler>, v: Uid)
    requires Inv(w) && list != [] && Listed(w, list) && v != list[0]
    ensures var t := Drain(w, list[0], hs); v in t.players ==> v in w.players && t.players[v] == w.players[v]
  {
    assert list[0] in list;
    if v in w.players {
      SavedPositionStaysGoodIff(w, list[0], hs, v);
    } else {
      DrainAddsNobody(w, list[0], hs, v);
    }
  }

  /** What a turn leaves of its own player, unless the package was missing. */
  lemma TurnServes(w: World, u: Uid, hs: seq<Handler>)
    requires Inv(w) && u in w.players && w.players[u].linked && |hs| >= QUEUE_MAX && !FindsNothing(w, u)
    ensures var t := Drain(w, u, hs); u in t.players ==> Served(t.players[u])
  {
    assert QueueOk(w.players[u], w.arrivals);
    if w.players[u].queue != [] {
      DrainGoesAsFarAsItCan(w, u, hs);
    }
  }

  /**
    A walk that comes to the end of its list has served everybody on it: each
    player is gone, busy, failed, or drained and off the list. It met no player
    that was idle with nothing queued from the start.
   */
  lemma {:induction false} FinishedWalkServesEverybody(w: World, list: seq<Uid>, hss: seq<seq<Handler>>, u: Uid)
    requires Inv(w) && Listed(w, list) && |hss| >= |list| && u in list
    requires forall i :: 0 <= i < |hss| ==> |hss[i]| >= QUEUE_MAX
    requires Scan(w, list, hss).ending == Finished
    ensures var t := Scan(w, list, hss).world; u in t.players ==> Served(t.players[u]) && !FindsNothing(w, u)
    decreases |list|
  {
    var t := Drain(w, list[0], hss[0]);
    var rest := Alive(t.players, list[1..]);
    assert list[0] in list && list[0] !in list[1..];
    RestIsListed(w, list, hss[0]);
    if u in rest {
      DrainLeavesOthersAlone(w, list, hss[0], u);
      FinishedWalkServesEverybody(t, rest, hss[1..], u);
    } else {
      if u == list[0] {
        TurnServes(w, u, hss[0]);
      }
      WalkLeavesOthersAlone(t, rest, hss[1..], u);
    }
  }

  /** The walk meets a missing package only at a player that was idle with nothing queued from the start. */
  lemma {:induction false} MissingOnlyIfThereFromTheStart(w: World, list: seq<Uid>, hss: seq<seq<Handler>>)
    returns (u: Uid)
    requires Inv(w) && Listed(w, list) && Scan(w, list, hss).ending == Missing
    ensures u in list && FindsNothing(w, u) && w.players[u].failed
    decreases |list|
  {
    u := list[0];
    assert u in list;
    if FindsNothing(w, u) {
      DrainCrashesIff(w, u, hss[0]);
    } else {
      var t := Drain(w, u, hss[0]);
      RestIsListed(w, list, hss[0]);
      u := MissingOnlyIfThereFromTheStart(t, Alive(t.players, list[1..]), hss[1..]);
      assert u in list[1..] && list[0] !in list[1..];
      DrainLeavesOthersAlone(w, list, hss[0], u);
      DrainCrashesIff(w, u, []);
    }
  }
}
