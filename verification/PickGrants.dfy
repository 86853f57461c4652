/**
  Who is given an item: what the database accepted, as against what the server
  took off its maps (gf/battle_svr/dbproxy.cpp, player.cpp).
 */
module PickGrants {
  import opened IdPool
  import opened PickItems
  import opened PickProtocol
  import opened PickReplies
  import opened Sequences

  /**
    Requests and the database agree: no item is out in two requests or in one
    after it was given away, neither kind lies free on a map, and the server
    erased only what was given away.
   */
  ghost predicate GrantsOk(w: World, given: seq<nat>) {
    && Distinct(given)
    && (forall k, l :: k in w.reqs && l in w.reqs && w.reqs[k].item == w.reqs[l].item ==> k == l)
    && (forall k :: k in w.reqs ==> w.reqs[k].item !in given && TakenOut(w, w.reqs[k].item))
    && (forall i :: i in given ==> TakenOut(w, i))
    && (forall i :: i in w.erased ==> i in given)
  }

  /** An item that was dropped and cannot be picked. */
  ghost predicate TakenOut(w: World, i: nat) { i < w.next && (i in w.items ==> !w.items[i].free) }

  /** No item becomes free by this step, except new ones. */
  ghost predicate FreesNothing(w: World, t: World) {
    w.next <= t.next && forall i :: i in t.items && t.items[i].free && i < w.next ==> i in w.items && w.items[i].free
  }

  lemma QuietKeepsGrants(w: World, t: World, given: seq<nat>)
    requires GrantsOk(w, given) && FreesNothing(w, t) && t.reqs == w.reqs && t.erased == w.erased
    ensures GrantsOk(t, given)
  {
    assert forall i :: TakenOut(w, i) ==> TakenOut(t, i);
  }

  lemma EndIsQuiet(w: World, u: Uid)
    ensures var t := End(w, u); FreesNothing(w, t) && t.reqs == w.reqs && t.erased == w.erased
    ensures var t := Seat(w, u); FreesNothing(w, t) && t.reqs == w.reqs && t.erased == w.erased
  {
  }

  lemma CreateIsQuiet(w: World, e: Event)
    requires e.Create? || e.Join? || e.Restart?
    ensures var t := Step(w, e); FreesNothing(w, t) && t.reqs == w.reqs && t.erased == w.erased
  {
    match e
    case Create(u, team) => EndIsQuiet(w, u);
    case Join(u, b, full) => EndIsQuiet(w, u); EndIsQuiet(Seat(w, u), u);
    case Restart(u) =>
  }

  lemma OtherIsQuiet(w: World, e: Event)
    requires e.Leave? || e.StartBattle? || e.Drop? || e.Command? || e.Done? || e.EnterMap?
    ensures var t := Step(w, e); FreesNothing(w, t) && t.reqs == w.reqs && t.erased == w.erased
  {
  }

  /** A pick sends out only an item that lies free, so neither out nor given away. */
  lemma PickKeepsGrants(w: World, e: Event, given: seq<nat>)
    requires Inv(w) && GrantsOk(w, given) && e.PickUp? && Runs(w, e.u, e.grp)
    ensures GrantsOk(Step(w, e), given)
  {
    PickReservesIff(w, e.u, e.grp, e.item, e.near, e.net, e.answered);
    var t := Step(w, e);
    assert forall i :: TakenOut(w, i) ==> TakenOut(t, i);
    assert e.item in w.items && w.items[e.item].free ==> !TakenOut(w, e.item);
    if w.next in t.reqs {
      assert e.item < w.next;
      assert TakenOut(t, e.item);
    }
  }

  /** An answered request is gone, and every item that was taken out still is. */
  lemma AcceptKeepsGrants(w: World, t: World, k: nat, given: seq<nat>)
    requires GrantsOk(w, given) && k in w.reqs && t.reqs == w.reqs - {k}
    requires forall i :: TakenOut(w, i) ==> TakenOut(t, i)
    requires forall i :: i in t.erased ==> i in w.erased || i == w.reqs[k].item
    ensures GrantsOk(t, given + [w.reqs[k].item])
  {
    AppendDistinct(given, w.reqs[k].item);
  }

  /** A refused request is gone, and may have freed its own item, which no other request carries. */
  lemma RefuseKeepsGrants(w: World, t: World, k: nat, given: seq<nat>)
    requires GrantsOk(w, given) && k in w.reqs && t.reqs == w.reqs - {k} && t.erased == w.erased
    requires forall i :: i != w.reqs[k].item && TakenOut(w, i) ==> TakenOut(t, i)
    ensures GrantsOk(t, given)
  {
  }

  /** What a reply does to items: it takes its own one off, frees it, or does nothing. */
  lemma ReplyOnItems(w: World, e: Event)
    requires Inv(w) && e.Reply? && e.req in w.reqs
    ensures var t, i := Step(w, e), w.reqs[e.req].item;
            && t.reqs == w.reqs - {e.req} && t.next == w.next
            && ((t.items == w.items && t.erased == w.erased)
                || (e.ret == 0 && t.items == w.items - {i} && t.erased == w.erased + [i])
                || (e.ret != 0 && e.ret != DB_TIMEOUT && i in w.items && t.erased == w.erased
                    && t.items == w.items[i := w.items[i].(free := true)]))
  {
    var r := w.reqs[e.req];
    if r.uid in w.players && w.players[r.uid].btl == r.grp {
      ReplyFindsItsItem(w, e.req);
    }
  }

  /** A reply gives away its own item or frees it, and no other. */
  lemma ReplyKeepsGrants(w: World, t: World, e: Event, given: seq<nat>)
    requires Inv(w) && GrantsOk(w, given) && e.Reply? && e.req in w.reqs && t == Step(w, e)
    ensures GrantsOk(t, given + AcceptedBy(w, e))
  {
    ReplyOnItems(w, e);
    var k := e.req;
    if e.ret == 0 || e.ret == DB_TIMEOUT {
      AcceptKeepsGrants(w, t, k, given);
    } else {
      RefuseKeepsGrants(w, t, k, given);
      assert given + AcceptedBy(w, e) == given;
    }
  }

  lemma StepKeepsGrants(w: World, e: Event, given: seq<nat>)
    requires Inv(w) && GrantsOk(w, given)
    ensures GrantsOk(Step(w, e), given + AcceptedBy(w, e))
  {
    if e.Reply? && e.req in w.reqs {
      ReplyKeepsGrants(w, Step(w, e), e, given);
    } else {
      assert given + AcceptedBy(w, e) == given;
      if e.PickUp? {
        if Runs(w, e.u, e.grp) {
          PickKeepsGrants(w, e, given);
        }
      } else if !e.Reply? {
        if e.Create? || e.Join? || e.Restart? {
          CreateIsQuiet(w, e);
        } else {
          OtherIsQuiet(w, e);
        }
        QuietKeepsGrants(w, Step(w, e), given);
      }
    }
  }

  lemma Regroup(a: seq<nat>, b: seq<nat>, c: seq<nat>)
    ensures (a + b) + c == a + (b + c)
  {
  }

  lemma OneMoreEvent(w: World, t: World, e: Event, given: seq<nat>)
    requires Inv(w) && GrantsOk(w, given) && Unaliased(w, e) && t == Step(w, e)
    ensures Inv(t) && GrantsOk(t, given + AcceptedBy(w, e))
  {
    StepKeepsInvIff(w, e);
    StepKeepsGrants(w, e, given);
  }

  lemma {:induction false} GrantsOverRuns(w: World, es: seq<Event>, given: seq<nat>)
    requires Inv(w) && GrantsOk(w, given) && UnaliasedRun(w, es)
    ensures Inv(Run(w, es)) && GrantsOk(Run(w, es), given + Accepted(w, es))
    decreases |es|
  {
    if es == [] {
      assert given + Accepted(w, es) == given;
    } else {
      var e, rest, t := es[0], es[1..], Step(w, es[0]);
      var now := given + AcceptedBy(w, e);
      OneMoreEvent(w, t, e, given);
      GrantsOverRuns(t, rest, now);
      Regroup(given, AcceptedBy(w, e), Accepted(t, rest));
    }
  }

  /**
    Each item is given away at most once over every run in which no id is
    aliased, in every interleaving with refusals, timeouts and departures; no
    request that is still out can give it away again; and what the server takes
    off its maps for a player was given away.
   */
  lemma EachItemIsGivenOnce(n: nat, es: seq<Event>)
    requires UnaliasedRun(Init(n), es)
    ensures Distinct(Accepted(Init(n), es)) && GrantsOk(Run(Init(n), es), Accepted(Init(n), es))
  {
    InitSatisfiesInv(n);
    GrantsOverRuns(Init(n), es, []);
    assert [] + Accepted(Init(n), es) == Accepted(Init(n), es);
  }

  /** In particular over the first n battles of a server with n ids, without a condition on the database. */
  lemma EachItemIsGivenOnceAtFirst(n: nat, es: seq<Event>)
    requires Creations(es) <= n
    ensures Distinct(Accepted(Init(n), es)) && GrantsOk(Run(Init(n), es), Accepted(Init(n), es))
  {
    InitSatisfiesInv(n);
    SafeUntilTheIdsComeRound(Init(n), es, n);
    EachItemIsGivenOnce(n, es);
  }

  // ---- Stranded items and the database ---------------------------------

  lemma StrandedIsNotAskedFor(w: World, e: Event, i: nat)
    requires Stranded(w, i) && forall k :: k in w.reqs ==> w.reqs[k].item != i
    ensures AcceptedBy(w, e) == [] || AcceptedBy(w, e)[0] != i
    ensures forall k :: k in Step(w, e).reqs ==> Step(w, e).reqs[k].item != i
  {
    if e.Create? || e.Join? || e.Restart? {
      CreateIsQuiet(w, e);
    } else if !e.PickUp? && !e.Reply? {
      OtherIsQuiet(w, e);
    }
  }

  /**
    An item that nobody holds and no request is out for reaches nobody any more,
    in any run: the database is never asked for it again. If a request is still
    out, its sender may be given the item, though the server will not know.
   */
  lemma {:induction false} UnaskedItemsReachNobody(w: World, es: seq<Event>, i: nat)
    requires Stranded(w, i) && forall k :: k in w.reqs ==> w.reqs[k].item != i
    ensures Stranded(Run(w, es), i) && i !in Accepted(w, es)
    decreases |es|
  {
    if es != [] {
      StrandedStep(w, es[0], i);
      StrandedIsNotAskedFor(w, es[0], i);
      UnaskedItemsReachNobody(Step(w, es[0]), es[1..], i);
    }
  }

  // ---- The condition cannot be weakened: an item given away twice ------

  lemma {:induction false} Extend(w: World, es: seq<Event>, e: Event)
    ensures Run(w, es + [e]) == Step(Run(w, es), e)
    ensures Accepted(w, es + [e]) == Accepted(w, es) + AcceptedBy(Run(w, es), e)
    ensures Creations(es + [e]) == Creations(es) + (if e.Create? || e.Restart? then 1 else 0)
    ensures Timeouts(es + [e]) == Timeouts(es) + (if e.Reply? && e.ret == DB_TIMEOUT then 1 else 0)
    decreases |es|
  {
    if es == [] {
      assert es + [e] == [e] && [e][1..] == [];
    } else {
      assert (es + [e])[1..] == es[1..] + [e];
      Extend(Step(w, es[0]), es[1..], e);
    }
  }

  /** `fs` goes on from `es` without a creation or a timeout, and gives away `more`. */
  ghost predicate Continues(w: World, es: seq<Event>, fs: seq<Event>, more: seq<nat>) {
    Accepted(w, fs) == Accepted(w, es) + more && Creations(fs) == Creations(es) && Timeouts(fs) == Timeouts(es)
  }

  /** `u` sits in a battle with id `b`, newly arrived and with its command unanswered. */
  ghost predicate Sits(w: World, u: Uid, b: nat) {
    !w.lost && b != 0 && b in w.battles && u in w.players && w.players[u] == Player(w.players[u].born, Other, b, 0, 0)
  }

  /** `u` plays in a battle with id `b`, with or without a pick of item `i`. */
  ghost predicate Plays(w: World, u: Uid, b: nat, i: nat) {
    && !w.lost && b != 0 && b in w.battles && w.battles[b].started && u in w.players
    && w.players[u] == Player(w.players[u].born, if i == 0 then Idle else Pick, b, 0, i)
  }

  ghost predicate Lies(w: World, b: nat, i: nat, free: bool) { i in w.items && w.items[i] == Item(b, 0, false, free) }

  /** Request `k` for `i` carries user id `u`, whichever incarnation sent it, and battle id `b`. */
  ghost predicate Asks(w: World, u: Uid, b: nat, k: nat, i: nat) {
    k in w.reqs && w.reqs[k].uid == u && w.reqs[k].grp == b && w.reqs[k].item == i
  }

  lemma GetsGoing(w: World, es: seq<Event>, u: Uid, b: nat) returns (fs: seq<Event>)
    requires Sits(Run(w, es), u, b)
    ensures var s, t := Run(w, es), Run(w, fs);
            Plays(t, u, b, 0) && t.reqs == s.reqs && t.erased == s.erased && t.next == s.next
    ensures Continues(w, es, fs, [])
  {
    Extend(w, es, StartBattle(b));
    fs := es + [StartBattle(b)];
    Extend(w, fs, Done(u));
    fs := fs + [Done(u)];
  }

  lemma Drops(w: World, es: seq<Event>, u: Uid, b: nat, i: nat) returns (fs: seq<Event>)
    requires Plays(Run(w, es), u, b, i)
    ensures var s, t := Run(w, es), Run(w, fs);
            && Plays(t, u, b, i) && Lies(t, b, s.next, true)
            && t.reqs == s.reqs && t.erased == s.erased && t.next == s.next + 1
            && forall j :: j in s.items && j != s.next ==> j in t.items && t.items[j] == s.items[j]
    ensures Continues(w, es, fs, [])
  {
    Extend(w, es, Drop(b, 0, false));
    fs := es + [Drop(b, 0, false)];
  }

  lemma Picks(w: World, es: seq<Event>, u: Uid, b: nat, i: nat) returns (fs: seq<Event>)
    requires Plays(Run(w, es), u, b, 0) && i != 0 && Lies(Run(w, es), b, i, true)
    ensures var s, t := Run(w, es), Run(w, fs);
            && Plays(t, u, b, i) && Lies(t, b, i, false) && Asks(t, u, b, s.next, i)
            && t.erased == s.erased && t.next == s.next + 1
            && forall k :: k in s.reqs && k != s.next ==> k in t.reqs && t.reqs[k] == s.reqs[k]
    ensures Continues(w, es, fs, [])
  {
    var e := PickUp(u, b, i, true, Sent, true);
    Extend(w, es, e);
    fs := es + [e];
  }

  /** A stale refusal puts the item back although its own request is still out. */
  lemma IsRefused(w: World, es: seq<Event>, u: Uid, b: nat, k: nat, i: nat, j: nat) returns (fs: seq<Event>)
    requires var s := Run(w, es); Plays(s, u, b, i) && i != 0 && Lies(s, b, i, false) && Asks(s, u, b, k, j)
    ensures var s, t := Run(w, es), Run(w, fs);
            && Plays(t, u, b, 0) && Lies(t, b, i, true)
            && t.reqs == s.reqs - {k} && t.next == s.next && t.erased == s.erased
    ensures Continues(w, es, fs, [])
  {
    var e := Reply(k, 5, Exact, true);
    Extend(w, es, e);
    fs := es + [e];
  }

  /** The database accepts the request for `j`, and the server takes `i` off its map. */
  lemma IsAccepted(w: World, es: seq<Event>, u: Uid, b: nat, k: nat, i: nat, j: nat) returns (fs: seq<Event>)
    requires var s := Run(w, es); Plays(s, u, b, i) && i != 0 && Lies(s, b, i, false) && Asks(s, u, b, k, j)
    ensures var s, t := Run(w, es), Run(w, fs);
            && Plays(t, u, b, 0) && t.items == s.items - {i}
            && t.reqs == s.reqs - {k} && t.next == s.next && t.erased == s.erased + [i]
    ensures Continues(w, es, fs, [j])
  {
    var e := Reply(k, 0, Exact, true);
    Extend(w, es, e);
    fs := es + [e];
  }

  /** A stale refusal frees an item that is still asked for; so it is asked for twice. */
  lemma IsAskedForTwice(w: World, es: seq<Event>, u: Uid, b: nat, k0: nat, i0: nat)
    returns (fs: seq<Event>, i: nat, k: nat, l: nat)
    requires var s := Run(w, es); Plays(s, u, b, 0) && Asks(s, u, b, k0, i0) && k0 < s.next
    ensures var t := Run(w, fs); Plays(t, u, b, i) && Lies(t, b, i, false) && Asks(t, u, b, k, i) && Asks(t, u, b, l, i)
    ensures 0 < Run(w, es).next <= i < k < l < Run(w, fs).next
    ensures Continues(w, es, fs, [])
  {
    i := Run(w, es).next;
    fs := Drops(w, es, u, b, 0);
    k := Run(w, fs).next;
    fs := Picks(w, fs, u, b, i);
    fs := IsRefused(w, fs, u, b, k0, i, i0);
    l := Run(w, fs).next;
    fs := Picks(w, fs, u, b, i);
  }

  /** Both requests are accepted, the second one while its sender holds another item. */
  lemma IsGivenTwice(w: World, es: seq<Event>, u: Uid, b: nat, i: nat, k: nat, l: nat) returns (fs: seq<Event>, j: nat)
    requires var s := Run(w, es);
             Plays(s, u, b, i) && Lies(s, b, i, false) && Asks(s, u, b, k, i) && Asks(s, u, b, l, i)
    requires 0 < i < k < l < Run(w, es).next
    ensures !Run(w, fs).lost && j == Run(w, es).next && j in Run(w, fs).erased
    ensures Continues(w, es, fs, [i, i])
  {
    j := Run(w, es).next;
    fs := Drops(w, es, u, b, i);
    fs := IsAccepted(w, fs, u, b, k, i, i);
    fs := Picks(w, fs, u, b, j);
    fs := IsAccepted(w, fs, u, b, l, j, i);
  }

  /**
    A battle opened under an unsafe id: the one who asked, or somebody who joins, sits
    under the id of an old request.
   */
  lemma UnsafeIdSeatsItsAsker(s: World, u: Uid, team: bool) returns (es: seq<Event>, v: Uid, b: nat, k: nat)
    requires Inv(s) && u in s.players && s.players[u].btl == 0 && s.players[u].picking == 0 && !SafeId(s, u, team)
    ensures var t := Run(Open(s, u, team), es);
            Sits(t, v, b) && k in t.reqs && Asks(t, v, b, k, t.reqs[k].item) && s.next <= t.next && k < t.next
    ensures Accepted(Open(s, u, team), es) == [] && Creations(es) == 0 && Timeouts(es) == 0
  {
    var t := Open(s, u, team);
    OpenSits(s, u, team);
    b := s.pool.free[0];
    k :| k in s.reqs && s.reqs[k].grp == b && (s.reqs[k].uid == u || team);
    assert ReqOk(k, s.reqs[k], s.players, s.battles, s.items, s.next);
    v := s.reqs[k].uid;
    if v == u {
      es := [];
    } else {
      JoinSits(t, v, b, u);
      es := [Join(v, b, false)];
      RunOne(t, es[0]);
      assert es[1..] == [];
    }
  }

  lemma OpenSits(s: World, u: Uid, team: bool)
    requires Inv(s) && u in s.players && s.players[u].btl == 0 && s.players[u].picking == 0 && s.pool.free != []
    ensures var t, b := Open(s, u, team), s.pool.free[0];
            && Sits(t, u, b) && t.battles[b] == Battle(team, false)
            && t.reqs == s.reqs && t.next == s.next && 0 !in t.items
  {
    OpenKeepsItems(s, u, team);
  }

  lemma JoinSits(t: World, v: Uid, b: nat, u: Uid)
    requires Sits(t, u, b) && t.battles[b].Joinable() && u != v && 0 !in t.items
    ensures var j := Step(t, Join(v, b, false)); Sits(j, v, b) && j.reqs == t.reqs && j.next == t.next + 1
  {
    JoinUnderAnOldId(t, v, b, u);
  }

  lemma UnsafeIdGivesTwice(s: World, u: Uid, team: bool) returns (es: seq<Event>, i: nat, j: nat)
    requires Inv(s) && u in s.players && s.players[u].btl == 0 && s.players[u].picking == 0 && !SafeId(s, u, team)
    ensures var t := Open(s, u, team);
            !Run(t, es).lost && Accepted(t, es) == [i, i] && j in Run(t, es).erased && s.next <= i < j
    ensures Creations(es) == 0 && Timeouts(es) == 0
  {
    var v, b, k, l;
    var t := Open(s, u, team);
    es, v, b, k := UnsafeIdSeatsItsAsker(s, u, team);
    var i0 := Run(t, es).reqs[k].item;
    es := GetsGoing(t, es, v, b);
    es, i, k, l := IsAskedForTwice(t, es, v, b, k, i0);
    es, j := IsGivenTwice(t, es, v, b, i, k, l);
  }

  /**
    After any event that aliases an id some run without a further creation, in
    which no request times out and every reply finds an item, gives one item
    away twice and takes another off its map for nobody.
   */
  lemma AliasedIdsGiveTwice(w: World, e: Event) returns (es: seq<Event>, i: nat, j: nat)
    requires Inv(w) && !Unaliased(w, e)
    ensures var t := Step(w, e);
            !Run(t, es).lost && Accepted(t, es) == [i, i] && j in Run(t, es).erased && w.next <= i < j
    ensures Creations(es) == 0 && Timeouts(es) == 0
  {
    if e.Create? {
      SeatKeepsInv(w, e.u);
      es, i, j := UnsafeIdGivesTwice(Seat(w, e.u), e.u, e.team);
    } else {
      UnseatKeepsInv(w, e.u);
      es, i, j := UnsafeIdGivesTwice(Unseat(w, e.u), e.u, false);
    }
  }

  /** Does no run without a further creation give away an item that was given away before, or one twice? */
  ghost predicate GivesOnceFrom(w: World, given: seq<nat>) {
    forall es :: Creations(es) == 0 ==> Distinct(given + Accepted(w, es))
  }

  /**
    So in every state reached without aliasing an event is safe exactly if it
    aliases no id: then, and only then, nothing is given away twice until the
    next battle is created.
   */
  lemma GivesOnceIffUnaliased(w: World, e: Event, given: seq<nat>)
    requires Inv(w) && GrantsOk(w, given)
    ensures GivesOnceFrom(Step(w, e), given + AcceptedBy(w, e)) <==> Unaliased(w, e)
  {
    var t, now := Step(w, e), given + AcceptedBy(w, e);
    if Unaliased(w, e) {
      OneMoreEvent(w, t, e, given);
      forall es | Creations(es) == 0
        ensures Distinct(now + Accepted(t, es))
      {
        SafeUntilTheIdsComeRound(t, es, 0);
        GrantsOverRuns(t, es, now);
      }
    } else {
      var es, i, j := AliasedIdsGiveTwice(w, e);
      TwiceIsNotDistinct(now, i);
    }
  }

  lemma TwiceIsNotDistinct(s: seq<nat>, i: nat)
    ensures !Distinct(s + [i, i])
  {
    assert (s + [i, i])[|s|] == (s + [i, i])[|s| + 1];
  }

  lemma {:induction false} AcceptedAppends(w: World, es: seq<Event>, fs: seq<Event>)
    ensures Accepted(w, es + fs) == Accepted(w, es) + Accepted(Run(w, es), fs)
    decreases |es|
  {
    if es == [] {
      assert es + fs == fs;
    } else {
      assert (es + fs)[1..] == es[1..] + fs;
      AcceptedAppends(Step(w, es[0]), es[1..], fs);
    }
  }

  lemma AppendsOne(w: World, es: seq<Event>, e: Event) returns (mid: seq<Event>)
    requires e.Create?
    ensures Run(w, mid) == Step(Run(w, es), e) && Accepted(w, mid) == Accepted(w, es)
    ensures Creations(mid) == Creations(es) + 1 && Timeouts(mid) == Timeouts(es)
  {
    Extend(w, es, e);
    mid := es + [e];
  }

  lemma AppendsAfter(w: World, es: seq<Event>, e: Event, fs: seq<Event>) returns (all: seq<Event>)
    requires e.Create?
    ensures Run(w, all) == Run(Step(Run(w, es), e), fs)
    ensures Accepted(w, all) == Accepted(w, es) + Accepted(Step(Run(w, es), e), fs)
    ensures Creations(all) == Creations(es) + 1 + Creations(fs) && Timeouts(all) == Timeouts(es) + Timeouts(fs)
  {
    var mid := AppendsOne(w, es, e);
    RunAppends(w, mid, fs);
    AcceptedAppends(w, mid, fs);
    all := mid + fs;
  }

  /**
    One battle more than there are ids, and an item can be given away twice
    while another is taken off its map for nobody, although every reply finds an
    item and no request times out: for a server with any number of ids.
   */
  lemma SomeItemIsGivenTwice(n: nat) returns (es: seq<Event>, i: nat, j: nat)
    requires n >= 1
    ensures Creations(es) == n + 1 && Timeouts(es) == 0 && !Run(Init(n), es).lost
    ensures multiset(Accepted(Init(n), es))[i] >= 2
    ensures j in Run(Init(n), es).erased && j !in Accepted(Init(n), es)
  {
    var a := EveryServerGetsThere(n);
    EachItemIsGivenOnceAtFirst(n, a);
    var w, e := Run(Init(n), a), Create(7, false);
    var given, fs := Accepted(Init(n), a), [];
    fs, i, j := AliasedIdsGiveTwice(w, e);
    assert j in given ==> TakenOut(w, j);
    es := AppendsAfter(Init(n), a, e, fs);
    assert Accepted(Init(n), es) == given + [i, i];
  }
}
