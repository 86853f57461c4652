/**
  The items of the picking protocol in every run whatever: what a reply finds or
  misses, and whether battle ids are reused, plays no part here.
 */
module PickItems {
  import opened IdPool
  import opened PickProtocol
  import opened Sequences

  ghost predicate PoolOk(p: Pool, battles: map<nat, Battle>) {
    Distinct(p.free) && 0 !in p.free && 0 !in battles && forall b :: b in battles ==> b !in p.free
  }

  ghost predicate PlayersOk(players: map<Uid, Player>, battles: map<nat, Battle>, next: nat) {
    && (forall u :: u in players ==> players[u].born < next && (players[u].btl == 0 || players[u].btl in battles))
    && (forall u, v :: (u in players && v in players && players[u].btl == players[v].btl && players[u].btl in battles
                        && !battles[players[u].btl].team) ==> u == v)
  }

  /** Drops lie in started battles and were not erased yet; no item was erased twice. */
  ghost predicate ItemsOk(items: map<nat, Item>, battles: map<nat, Battle>, erased: seq<nat>, next: nat) {
    && next > 0 && Distinct(erased)
    && (forall i :: i in erased ==> 0 < i < next && i !in items)
    && (forall i :: i in items ==> 0 < i < next && items[i].btl in battles && battles[items[i].btl].started)
  }

  /** What a player reserved is on a map of its battle, not free, and reserved by nobody else. */
  ghost predicate ReservedOk(players: map<Uid, Player>, items: map<nat, Item>) {
    && (forall u :: u in players && players[u].picking != 0 ==>
          players[u].picking in items && !items[players[u].picking].free
          && items[players[u].picking].btl == players[u].btl)
    && (forall u, v :: u in players && v in players && players[u].picking == players[v].picking != 0 ==> u == v)
  }

  ghost predicate ItemInv(w: World) {
    && PoolOk(w.pool, w.battles) && PlayersOk(w.players, w.battles, w.next)
    && ItemsOk(w.items, w.battles, w.erased, w.next) && ReservedOk(w.players, w.items)
  }

  // ---- Every event keeps it --------------------------------------------

  lemma GiveKeepsPool(w: World, b: nat)
    requires PoolOk(w.pool, w.battles) && b in w.battles
    ensures PoolOk(Destroy(w, b).pool, Destroy(w, b).battles)
  {
    AppendDistinct(w.pool.free, b);
  }

  lemma EndKeepsItems(w: World, u: Uid)
    requires ItemInv(w)
    ensures ItemInv(End(w, u)) && u !in End(w, u).players
  {
    if u in w.players && w.players[u].btl in w.battles && Alone(w, u, w.players[u].btl) {
      GiveKeepsPool(w, w.players[u].btl);
    }
  }

  lemma SeatKeepsItems(w: World, u: Uid)
    requires ItemInv(w)
    ensures var t := Seat(w, u); ItemInv(t) && u in t.players && t.players[u].btl == 0 && t.players[u].picking == 0
  {
    EndKeepsItems(w, u);
  }

  lemma UnseatKeepsItems(w: World, u: Uid)
    requires ItemInv(w) && MayRestart(w, u)
    ensures var t := Unseat(w, u); ItemInv(t) && u in t.players && t.players[u].btl == 0 && t.players[u].picking == 0
  {
    GiveKeepsPool(w, w.players[u].btl);
  }

  lemma OpenKeepsItems(w: World, u: Uid, team: bool)
    requires ItemInv(w) && u in w.players && w.players[u].btl == 0 && w.players[u].picking == 0
    ensures ItemInv(Open(w, u, team))
    ensures w.pool.free != [] ==> w.pool.free[0] != 0 && w.pool.free[0] !in w.battles
  {
    if w.pool.free != [] {
      assert w.pool.free[0] in w.pool.free && forall x :: x in w.pool.free[1..] ==> x in w.pool.free;
    }
  }

  lemma JoinKeepsItems(w: World, u: Uid, b: nat, full: bool)
    requires ItemInv(w)
    ensures ItemInv(DoJoin(w, u, b, full))
  {
    SeatKeepsItems(w, u);
    EndKeepsItems(Seat(w, u), u);
  }

  /** A player may change its command and its map and forget what it reserved. */
  lemma ChangeKeepsItems(w: World, u: Uid, p: Player)
    requires ItemInv(w) && u in w.players && p.born == w.players[u].born && p.btl == w.players[u].btl
    requires p.picking == w.players[u].picking || p.picking == 0
    ensures ItemInv(w.(players := w.players[u := p]))
  {
  }

  lemma ReserveKeepsItems(w: World, u: Uid, i: nat)
    requires ItemInv(w) && u in w.players && OnMap(w, w.players[u], i) && w.items[i].free
    ensures ItemInv(Reserve(w, u, i))
  {
  }

  lemma PickKeepsItems(w: World, u: Uid, i: nat, near: bool, net: Net, answered: bool)
    requires ItemInv(w) && u in w.players
    ensures ItemInv(DoPick(w, u, i, near, net, answered))
  {
    var p := w.players[u];
    if !OnMap(w, p, i) || !near || !w.items[i].free {
      ChangeKeepsItems(w, u, p.(wait := if answered then Idle else Pick));
    } else {
      ReserveKeepsItems(w, u, i);
      var t := Reserve(w, u, i);
      ChangeKeepsItems(t, u, t.players[u].(wait := if answered then Idle else Pick));
    }
  }

  lemma ReleaseKeepsItems(w: World, u: Uid, wait: Wait)
    requires ItemInv(w) && u in w.players && w.players[u].picking != 0
    ensures w.players[u].picking in w.items && ItemInv(Release(w, u, wait))
  {
  }

  lemma TakeOffKeepsItems(w: World, u: Uid, wait: Wait)
    requires ItemInv(w) && u in w.players && w.players[u].picking != 0
    ensures ItemInv(TakeOff(w, u, wait))
  {
    AppendDistinct(w.erased, w.players[u].picking);
  }

  lemma CallbackKeepsItems(w: World, u: Uid, ret: nat, answered: bool)
    requires ItemInv(w) && u in w.players
    ensures ItemInv(Callback(w, u, ret, answered))
  {
    var p := w.players[u];
    if ret == DB_TIMEOUT {
      ChangeKeepsItems(w, u, p.(wait := Idle));
    } else if OnMap(w, p, p.picking) {
      ReleaseKeepsItems(w, u, if answered then Idle else p.wait);
      TakeOffKeepsItems(w, u, if answered || !w.items[p.picking].owned then Idle else p.wait);
    }
  }

  lemma DropKeepsItems(w: World, b: nat, m: nat, owned: bool)
    requires ItemInv(w) && b in w.battles && w.battles[b].started
    ensures ItemInv(w.(items := w.items[w.next := Item(b, m, owned, true)], next := w.next + 1))
  {
  }

  lemma StartKeepsItems(w: World, b: nat)
    requires ItemInv(w) && b in w.battles
    ensures ItemInv(w.(battles := w.battles[b := w.battles[b].(started := true)]))
  {
  }

  lemma CreateKeepsItems(w: World, u: Uid, team: bool)
    requires ItemInv(w)
    ensures ItemInv(Open(Seat(w, u), u, team))
  {
    SeatKeepsItems(w, u);
    OpenKeepsItems(Seat(w, u), u, team);
  }

  lemma RestartKeepsItems(w: World, u: Uid)
    requires ItemInv(w)
    ensures ItemInv(DoRestart(w, u))
  {
    if MayRestart(w, u) {
      UnseatKeepsItems(w, u);
      OpenKeepsItems(Unseat(w, u), u, false);
    }
  }

  lemma CommandKeepsItems(w: World, u: Uid, grp: nat, m: nat)
    requires ItemInv(w)
    ensures ItemInv(Step(w, Command(u, grp))) && ItemInv(Step(w, Done(u))) && ItemInv(Step(w, EnterMap(u, grp, m)))
  {
    if u in w.players {
      ChangeKeepsItems(w, u, w.players[u].(wait := Other));
      ChangeKeepsItems(w, u, w.players[u].(wait := Idle));
      ChangeKeepsItems(w, u, w.players[u].(place := m));
    }
  }

  lemma ReplyKeepsItems(w: World, k: nat, ret: nat, body: Body, answered: bool)
    requires ItemInv(w)
    ensures ItemInv(DoReply(w, k, ret, body, answered))
  {
    if k in w.reqs {
      var u, t := w.reqs[k].uid, w.(reqs := w.reqs - {k});
      if u in t.players {
        CallbackKeepsItems(t, u, ret, answered);
      }
    }
  }

  lemma StepKeepsItems(w: World, e: Event)
    requires ItemInv(w)
    ensures ItemInv(Step(w, e))
  {
    match e
    case Create(u, team) => CreateKeepsItems(w, u, team);
    case Join(u, b, full) => JoinKeepsItems(w, u, b, full);
    case Restart(u) => RestartKeepsItems(w, u);
    case Leave(u) => EndKeepsItems(w, u);
    case StartBattle(b) => if b in w.battles { StartKeepsItems(w, b); }
    case Drop(b, m, owned) => if b in w.battles && w.battles[b].started { DropKeepsItems(w, b, m, owned); }
    case Command(u, grp) => CommandKeepsItems(w, u, grp, 0);
    case Done(u) => CommandKeepsItems(w, u, 0, 0);
    case EnterMap(u, grp, m) => CommandKeepsItems(w, u, grp, m);
    case PickUp(u, grp, i, near, net, answered) => if Runs(w, u, grp) { PickKeepsItems(w, u, i, near, net, answered); }
    case Reply(k, ret, body, answered) => ReplyKeepsItems(w, k, ret, body, answered);
  }

  /** One erasure and one holder for each item. What the database gives away is another matter: see PickGrants. */
  ghost predicate ErasedOnceHeldOnce(w: World) {
    && Distinct(w.erased) && (forall i :: i in w.erased ==> i !in w.items)
    && (forall u, v :: u in w.players && v in w.players && w.players[u].picking == w.players[v].picking != 0 ==> u == v)
    && (forall u, i :: u in w.players && i in w.items && w.items[i].free ==> w.players[u].picking != i)
  }

  /**
    Every run, stale replies and reused ids included: no item is taken off a map
    twice or lies on one after that, an item is reserved by at most one player,
    and a free item by nobody.
   */
  lemma {:induction false} RunKeepsItems(w: World, es: seq<Event>)
    requires ItemInv(w)
    ensures ItemInv(Run(w, es)) && ErasedOnceHeldOnce(Run(w, es))
    decreases |es|
  {
    if es != [] {
      StepKeepsItems(w, es[0]);
      RunKeepsItems(Step(w, es[0]), es[1..]);
    }
  }

  lemma InitSatisfiesItemInv(n: nat)
    ensures ItemInv(Init(n))
  {
    assert 0 !in UpTo(n);
  }

  /** Leaving ends the battle exactly if nobody else sits in it; other players and the drops of other battles stay. */
  lemma LeavingTouchesNobodyElse(w: World, u: Uid)
    requires ItemInv(w) && u in w.players
    ensures var t, b := End(w, u), w.players[u].btl;
            && t.players == w.players - {u} && t.reqs == w.reqs && t.erased == w.erased
            && (b in w.battles ==> (b in t.battles <==> exists v :: v in t.players && t.players[v].btl == b))
            && (forall i :: i in w.items && w.items[i].btl in t.battles <==> i in t.items)
            && (forall i :: i in t.items ==> t.items[i] == w.items[i])
            && (forall c :: c in w.battles && c != b ==> c in t.battles && t.battles[c] == w.battles[c])
  {
    var b := w.players[u].btl;
    if b in w.battles && !Alone(w, u, b) {
      var v :| v in w.players && v != u && w.players[v].btl == b;
      assert v in End(w, u).players;
    }
  }

  // ---- Stranded items --------------------------------------------------

  /** An item that was dropped and not erased for a player, that is not free, and that nobody holds. */
  ghost predicate Stranded(w: World, i: nat) {
    && 0 < i < w.next && i !in w.erased && (i in w.items ==> !w.items[i].free)
    && forall u :: u in w.players ==> w.players[u].picking != i
  }

  lemma StrandedAfterEnd(w: World, u: Uid, i: nat)
    requires Stranded(w, i)
    ensures Stranded(End(w, u), i) && Stranded(Seat(w, u), i)
  {
  }

  lemma StrandedAfterOpen(w: World, u: Uid, team: bool, i: nat)
    requires Stranded(w, i) && u in w.players
    ensures Stranded(Open(w, u, team), i)
  {
  }

  lemma StrandedAfterReply(w: World, k: nat, ret: nat, body: Body, answered: bool, i: nat)
    requires Stranded(w, i)
    ensures Stranded(DoReply(w, k, ret, body, answered), i)
  {
  }

  lemma StrandedAfterPick(w: World, u: Uid, j: nat, near: bool, net: Net, answered: bool, i: nat)
    requires Stranded(w, i) && u in w.players
    ensures Stranded(DoPick(w, u, j, near, net, answered), i)
  {
  }

  lemma StrandedStep(w: World, e: Event, i: nat)
    requires Stranded(w, i)
    ensures Stranded(Step(w, e), i)
  {
    match e
    case Create(u, team) => StrandedAfterEnd(w, u, i); StrandedAfterOpen(Seat(w, u), u, team, i);
    case Join(u, b, full) => StrandedAfterEnd(w, u, i); StrandedAfterEnd(Seat(w, u), u, i);
    case Restart(u) => if MayRestart(w, u) { StrandedAfterOpen(Unseat(w, u), u, false, i); }
    case Leave(u) => StrandedAfterEnd(w, u, i);
    case PickUp(u, grp, j, near, net, answered) =>
      if Runs(w, u, grp) { StrandedAfterPick(w, u, j, near, net, answered, i); }
    case Reply(k, ret, body, answered) => StrandedAfterReply(w, k, ret, body, answered, i);
    case _ =>
  }

  /** A stranded item is never freed, reserved or erased for a player again, in any run. */
  lemma {:induction false} StrandedForever(w: World, es: seq<Event>, i: nat)
    requires Stranded(w, i)
    ensures Stranded(Run(w, es), i)
    decreases |es|
  {
    if es != [] {
      StrandedStep(w, es[0], i);
      StrandedForever(Step(w, es[0]), es[1..], i);
    }
  }

  /**
    So nobody can pick an item on a map that is not free and that nobody holds.
    A request for it may still be out, or have timed out: then the database may
    give it to its picker all the same (PickGrants.UnaskedItemsReachNobody).
   */
  lemma UnheldItemsStayTaken(w: World, es: seq<Event>, i: nat)
    requires ItemInv(w) && i in w.items && !w.items[i].free
    requires forall u :: u in w.players ==> w.players[u].picking != i
    ensures var t := Run(w, es);
            && i !in t.erased && (i in t.items ==> !t.items[i].free)
            && forall u :: u in t.players ==> t.players[u].picking != i
  {
    assert i !in w.erased;
    StrandedForever(w, es, i);
  }

  /**
    Two ways to strand an item: its picker leaves while others stay, or its
    picker, free to act again after a timeout, reserves something else.
   */
  lemma WaysToStrand(w: World, u: Uid, grp: nat, j: nat, net: Net, answered: bool)
    requires ItemInv(w) && u in w.players && w.players[u].picking != 0
    ensures Stranded(End(w, u), w.players[u].picking)
    ensures Runs(w, u, grp) && OnMap(w, w.players[u], j) && w.items[j].free ==>
              Stranded(Step(w, PickUp(u, grp, j, true, net, answered)), w.players[u].picking)
  {
    var i := w.players[u].picking;
    assert i in w.items && !w.items[i].free;
    assert i !in w.erased;
  }
}
