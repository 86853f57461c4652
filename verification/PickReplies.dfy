/**
  Replies that find what they look for: whether a database reply still meets
  the item its request reserved (gf/battle_svr/dbproxy.cpp, player.cpp), and
  how that depends on the reuse of battle ids.
 */
module PickReplies {
  import opened IdPool
  import opened PickItems
  import opened PickProtocol
  import opened Sequences

  // ---- The invariant ---------------------------------------------------

  /** Nobody can come to sit under the id of a request it did not send. */
  ghost predicate Isolated(r: Req, players: map<Uid, Player>, battles: map<nat, Battle>) {
    && (r.grp in battles ==> !battles[r.grp].Joinable())
    && (r.uid in players && players[r.uid].btl == r.grp ==> players[r.uid].born == r.born)
  }

  /** While its sender is still there, a request holds the sender's command and its reserved item. */
  ghost predicate Awaited(r: Req, players: map<Uid, Player>, items: map<nat, Item>) {
    r.uid in players && players[r.uid].born == r.born ==>
      var p := players[r.uid];
      && p.wait == Pick && p.btl == r.grp && p.picking == r.item
      && r.item in items && items[r.item].place == p.place
  }

  /** Is the incarnation that sent the request still there? */
  ghost predicate Sender(w: World, r: Req) { r.uid in w.players && w.players[r.uid].born == r.born }

  ghost predicate ReqOk(k: nat, r: Req, players: map<Uid, Player>, battles: map<nat, Battle>, items: map<nat, Item>,
                        next: nat) {
    && k < next && 0 < r.item && r.grp != 0 && r.born < next
    && Isolated(r, players, battles) && Awaited(r, players, items)
  }

  ghost predicate ReqsOk(w: World) {
    && (forall k :: k in w.reqs ==> ReqOk(k, w.reqs[k], w.players, w.battles, w.items, w.next))
    && (forall k, l :: (k in w.reqs && l in w.reqs && Sender(w, w.reqs[k]) && Sender(w, w.reqs[l])
                        && w.reqs[k].uid == w.reqs[l].uid) ==> k == l)
  }

  ghost predicate Inv(w: World) {
    !w.lost && ItemInv(w) && ReqsOk(w)
  }

  /** The new battle of `u` does not get an id under which a reply could still reach the wrong player. */
  ghost predicate SafeId(w: World, u: Uid, team: bool) {
    w.pool.free == [] || forall k :: k in w.reqs && w.reqs[k].grp == w.pool.free[0] ==> w.reqs[k].uid != u && !team
  }

  /** Does the event give out no id that an outstanding request still carries, in the sense of SafeId? */
  ghost predicate Unaliased(w: World, e: Event) {
    match e
    case Create(u, team) => SafeId(Seat(w, u), u, team)
    case Restart(u) => MayRestart(w, u) ==> SafeId(Unseat(w, u), u, false)
    case _ => true
  }

  // ---- Every event keeps the invariant ---------------------------------

  lemma EndKeepsInv(w: World, u: Uid)
    requires Inv(w)
    ensures Inv(End(w, u)) && u !in End(w, u).players && End(w, u).reqs == w.reqs
  {
    EndKeepsItems(w, u);
    var t := End(w, u);
    forall k | k in t.reqs
      ensures ReqOk(k, t.reqs[k], t.players, t.battles, t.items, t.next)
    {
      assert ReqOk(k, w.reqs[k], w.players, w.battles, w.items, w.next);
    }
  }

  /** Everything about a request survives when `u`, who did not send it, takes a new place or a new identity. */
  lemma ReqAfterMove(k: nat, r: Req, players: map<Uid, Player>, battles: map<nat, Battle>, items: map<nat, Item>,
                     next: nat,
                     u: Uid, p: Player, more: map<nat, Battle>)
    requires ReqOk(k, r, players, battles, items, next)
    requires r.uid == u ==> p.born != r.born && p.btl != r.grp
    requires r.grp in more ==> (r.grp in battles && more[r.grp] == battles[r.grp]) || !more[r.grp].Joinable()
    ensures ReqOk(k, r, players[u := p], more, items, next)
  {
  }

  /** A player without a battle has no request of its own under way. */
  lemma SeatlessAwaitsNothing(w: World, u: Uid, k: nat)
    requires Inv(w) && u in w.players && w.players[u].btl == 0 && k in w.reqs
    ensures w.reqs[k].uid == u ==> w.reqs[k].born != w.players[u].born
  {
    assert ReqOk(k, w.reqs[k], w.players, w.battles, w.items, w.next);
  }

  lemma SeatKeepsInv(w: World, u: Uid)
    requires Inv(w)
    ensures var t := Seat(w, u);
            Inv(t) && t.reqs == w.reqs && u in t.players && t.players[u].btl == 0 && t.players[u].picking == 0
  {
    EndKeepsInv(w, u);
    SeatKeepsItems(w, u);
    var d, t := End(w, u), Seat(w, u);
    forall k | k in t.reqs
      ensures ReqOk(k, t.reqs[k], t.players, t.battles, t.items, t.next)
    {
      ReqAfterMove(k, d.reqs[k], d.players, d.battles, d.items, d.next, u, t.players[u], d.battles);
    }
  }

  lemma UnseatKeepsInv(w: World, u: Uid)
    requires Inv(w) && MayRestart(w, u)
    ensures var t := Unseat(w, u);
            Inv(t) && t.reqs == w.reqs && u in t.players && t.players[u].btl == 0 && t.players[u].picking == 0
  {
    UnseatKeepsItems(w, u);
    var t := Unseat(w, u);
    forall k | k in t.reqs
      ensures ReqOk(k, t.reqs[k], t.players, t.battles, t.items, t.next)
    {
      assert ReqOk(k, w.reqs[k], w.players, w.battles, w.items, w.next);
    }
  }

  lemma OpenKeepsReqs(w: World, u: Uid, team: bool)
    requires Inv(w) && u in w.players && w.players[u].btl == 0 && w.pool.free != [] && w.pool.free[0] !in w.battles
    requires SafeId(w, u, team)
    ensures ReqsOk(Open(w, u, team))
  {
    var t := Open(w, u, team);
    forall k | k in t.reqs
      ensures ReqOk(k, t.reqs[k], t.players, t.battles, t.items, t.next)
    {
      SeatlessAwaitsNothing(w, u, k);
      ReqAfterMove(k, w.reqs[k], w.players, w.battles, w.items, w.next, u, t.players[u], t.battles);
    }
  }

  /** A new battle is harmless exactly if its id is safe. */
  lemma OpenIff(w: World, u: Uid, team: bool)
    requires Inv(w) && u in w.players && w.players[u].btl == 0 && w.players[u].picking == 0
    ensures Inv(Open(w, u, team)) <==> SafeId(w, u, team)
  {
    if w.pool.free != [] {
      OpenKeepsItems(w, u, team);
      if SafeId(w, u, team) {
        OpenKeepsReqs(w, u, team);
      } else {
        var k :| k in w.reqs && w.reqs[k].grp == w.pool.free[0] && (w.reqs[k].uid == u || team);
        SeatlessAwaitsNothing(w, u, k);
        UnsafeIdBreaksIsolation(w, u, team, k);
      }
    }
  }

  lemma UnsafeIdBreaksIsolation(w: World, u: Uid, team: bool, k: nat)
    requires u in w.players && w.pool.free != [] && k in w.reqs && w.reqs[k].grp == w.pool.free[0]
    requires w.reqs[k].uid == u ==> w.reqs[k].born != w.players[u].born
    requires w.reqs[k].uid == u || team
    ensures !ReqsOk(Open(w, u, team))
  {
    var t := Open(w, u, team);
    assert !Isolated(t.reqs[k], t.players, t.battles);
    assert !ReqOk(k, t.reqs[k], t.players, t.battles, t.items, t.next);
  }

  lemma JoinKeepsInv(w: World, u: Uid, b: nat, full: bool)
    requires Inv(w)
    ensures Inv(DoJoin(w, u, b, full))
  {
    SeatKeepsInv(w, u);
    EndKeepsInv(Seat(w, u), u);
    EnterKeepsInv(Seat(w, u), u, b);
  }

  lemma EnterKeepsInv(w: World, u: Uid, b: nat)
    requires Inv(w) && u in w.players && w.players[u].btl == 0 && w.players[u].picking == 0
    ensures b in w.battles && w.battles[b].Joinable() ==> Inv(w.(players := w.players[u := w.players[u].(btl := b)]))
  {
    if b in w.battles && w.battles[b].Joinable() {
      var t := w.(players := w.players[u := w.players[u].(btl := b)]);
      forall k | k in t.reqs
        ensures ReqOk(k, t.reqs[k], t.players, t.battles, t.items, t.next)
      {
        SeatlessAwaitsNothing(w, u, k);
        assert ReqOk(k, w.reqs[k], w.players, w.battles, w.items, w.next);
        ReqAfterMove(k, w.reqs[k], w.players, w.battles, w.items, w.next, u, t.players[u], w.battles);
      }
    }
  }

  /** `u` has no request of its own under way. */
  ghost predicate AsksNothing(w: World, u: Uid) {
    u in w.players && forall k :: k in w.reqs && w.reqs[k].uid == u ==> w.reqs[k].born != w.players[u].born
  }

  lemma NotPickingAsksNothing(w: World, u: Uid)
    requires Inv(w) && u in w.players && w.players[u].wait != Pick
    ensures AsksNothing(w, u)
  {
    forall k | k in w.reqs && w.reqs[k].uid == u
      ensures w.reqs[k].born != w.players[u].born
    {
      assert ReqOk(k, w.reqs[k], w.players, w.battles, w.items, w.next);
    }
  }

  /** A player that asks nothing may change its command, its map, and give up what it reserved. */
  lemma ChangeKeepsInv(w: World, u: Uid, p: Player)
    requires Inv(w) && AsksNothing(w, u) && p.born == w.players[u].born && p.btl == w.players[u].btl
    requires p.picking == w.players[u].picking || p.picking == 0
    ensures var t := w.(players := w.players[u := p]); Inv(t) && AsksNothing(t, u)
  {
    var t := w.(players := w.players[u := p]);
    ChangeKeepsItems(w, u, p);
    forall k | k in t.reqs
      ensures ReqOk(k, t.reqs[k], t.players, t.battles, t.items, t.next)
    {
      assert ReqOk(k, w.reqs[k], w.players, w.battles, w.items, w.next);
      ReqAfterMove(k, w.reqs[k], w.players, w.battles, w.items, w.next, u, p, w.battles);
    }
  }

  /** A request survives a change to an item that is not its sender's. */
  lemma ReqAfterItem(k: nat, r: Req, players: map<Uid, Player>, battles: map<nat, Battle>, items: map<nat, Item>,
                     next: nat,
                     items': map<nat, Item>)
    requires ReqOk(k, r, players, battles, items, next)
    requires r.item in items && r.uid in players && players[r.uid].born == r.born ==>
               r.item in items' && items'[r.item].place == items[r.item].place
    ensures ReqOk(k, r, players, battles, items', next)
  {
  }

  lemma ReserveKeepsInv(w: World, u: Uid, i: nat)
    requires Inv(w) && AsksNothing(w, u) && OnMap(w, w.players[u], i) && w.items[i].free
    ensures Inv(Reserve(w, u, i)) && AsksNothing(Reserve(w, u, i), u)
  {
    var t := Reserve(w, u, i);
    ReserveKeepsItems(w, u, i);
    forall k | k in t.reqs
      ensures ReqOk(k, t.reqs[k], t.players, t.battles, t.items, t.next)
    {
      assert ReqOk(k, w.reqs[k], w.players, w.battles, w.items, w.next);
      ReqAfterItem(k, w.reqs[k], w.players, w.battles, w.items, w.next, t.items);
      ReqAfterMove(k, w.reqs[k], w.players, w.battles, t.items, w.next, u, t.players[u], w.battles);
    }
  }

  lemma AskKeepsInv(w: World, u: Uid)
    requires Inv(w) && AsksNothing(w, u) && w.players[u].wait == Pick
             && w.players[u].picking != 0 && w.players[u].btl != 0
    requires OnMap(w, w.players[u], w.players[u].picking)
    ensures Inv(w.(reqs := w.reqs[w.next := Req(u, w.players[u].btl, w.players[u].born, w.players[u].picking)],
                   next := w.next + 1))
  {
    var p := w.players[u];
    var t := w.(reqs := w.reqs[w.next := Req(u, p.btl, p.born, p.picking)], next := w.next + 1);
    forall k | k in t.reqs
      ensures ReqOk(k, t.reqs[k], t.players, t.battles, t.items, t.next)
    {
      assert k != w.next ==> ReqOk(k, w.reqs[k], w.players, w.battles, w.items, w.next);
    }
  }

  lemma PickKeepsInv(w: World, u: Uid, i: nat, near: bool, net: Net, answered: bool)
    requires Inv(w) && u in w.players && w.players[u].wait == Idle && w.players[u].btl in w.battles
    ensures Inv(DoPick(w, u, i, near, net, answered))
  {
    NotPickingAsksNothing(w, u);
    var p := w.players[u];
    if !OnMap(w, p, i) || !near || !w.items[i].free {
      ChangeKeepsInv(w, u, p.(wait := if answered then Idle else Pick));
    } else {
      ReserveKeepsInv(w, u, i);
      AfterReserving(Reserve(w, u, i), u, net, answered);
    }
  }

  lemma AfterReserving(t: World, u: Uid, net: Net, answered: bool)
    requires Inv(t) && AsksNothing(t, u) && t.players[u].wait == Pick
             && t.players[u].picking != 0 && t.players[u].btl != 0
    requires OnMap(t, t.players[u], t.players[u].picking)
    ensures net == Sent ==>
              Inv(t.(reqs := t.reqs[t.next := Req(u, t.players[u].btl, t.players[u].born, t.players[u].picking)],
                     next := t.next + 1))
    ensures net == ProxyDown ==> Inv(SetWait(t, u, if answered then Idle else Pick))
  {
    match net
    case Sent => AskKeepsInv(t, u);
    case Dropped =>
    case ProxyDown => ChangeKeepsInv(t, u, t.players[u].(wait := if answered then Idle else Pick));
  }

  /** The reply is for the player it reaches: same incarnation, and its item is reserved where the player is. */
  lemma ReplyFindsItsItem(w: World, k: nat)
    requires Inv(w) && k in w.reqs && w.reqs[k].uid in w.players && w.players[w.reqs[k].uid].btl == w.reqs[k].grp
    ensures var r := w.reqs[k];
            var p := w.players[r.uid];
            && p.born == r.born && p.wait == Pick && p.picking == r.item && OnMap(w, p, r.item) && !w.items[r.item].free
            && r.item !in w.erased
    ensures var t := w.(reqs := w.reqs - {k}); AsksNothing(t, w.reqs[k].uid)
  {
    assert ReqOk(k, w.reqs[k], w.players, w.battles, w.items, w.next);
  }

  lemma ForgetKeepsInv(w: World, k: nat)
    requires Inv(w)
    ensures Inv(w.(reqs := w.reqs - {k}))
  {
    var t := w.(reqs := w.reqs - {k});
    forall l | l in t.reqs
      ensures ReqOk(l, t.reqs[l], t.players, t.battles, t.items, t.next)
    {
      assert ReqOk(l, w.reqs[l], w.players, w.battles, w.items, w.next);
    }
  }

  /** The other requests survive when `u` lets go of its item, whatever becomes of the item. */
  lemma OthersSurvive(w: World, u: Uid, p: Player, items: map<nat, Item>)
    requires Inv(w) && AsksNothing(w, u) && p.born == w.players[u].born && p.btl == w.players[u].btl
             && w.players[u].picking != 0
    requires forall i :: i in w.items && i != w.players[u].picking ==> i in items && items[i] == w.items[i]
    ensures ReqsOk(w.(items := items, players := w.players[u := p]))
  {
    var t := w.(items := items, players := w.players[u := p]);
    forall k | k in t.reqs
      ensures ReqOk(k, t.reqs[k], t.players, t.battles, t.items, t.next)
    {
      var r := w.reqs[k];
      assert ReqOk(k, r, w.players, w.battles, w.items, w.next);
      assert Sender(w, r) ==> r.uid != u && w.players[r.uid].picking == r.item != w.players[u].picking;
      ReqAfterItem(k, r, w.players, w.battles, w.items, w.next, t.items);
      ReqAfterMove(k, r, w.players, w.battles, t.items, w.next, u, p, w.battles);
    }
  }

  lemma ReleaseKeepsInv(w: World, u: Uid, wait: Wait)
    requires Inv(w) && AsksNothing(w, u) && w.players[u].picking != 0
    ensures w.players[u].picking in w.items && Inv(Release(w, u, wait))
  {
    var t := Release(w, u, wait);
    ReleaseKeepsItems(w, u, wait);
    OthersSurvive(w, u, t.players[u], t.items);
    assert t == w.(items := t.items, players := t.players);
  }

  lemma TakeOffKeepsInv(w: World, u: Uid, wait: Wait)
    requires Inv(w) && AsksNothing(w, u) && w.players[u].picking != 0
    ensures Inv(TakeOff(w, u, wait))
  {
    var t := TakeOff(w, u, wait);
    OthersSurvive(w, u, t.players[u], t.items);
    TakeOffKeepsItems(w, u, wait);
    assert ReqsOk(w.(items := t.items, players := t.players)) ==> ReqsOk(t);
  }

  lemma CallbackKeepsInv(w: World, u: Uid, ret: nat, answered: bool)
    requires Inv(w) && AsksNothing(w, u) && w.players[u].picking != 0 && OnMap(w, w.players[u], w.players[u].picking)
    ensures Inv(Callback(w, u, ret, answered))
  {
    var p := w.players[u];
    if ret == DB_TIMEOUT {
      ChangeKeepsInv(w, u, p.(wait := Idle));
    } else if ret != 0 {
      ReleaseKeepsInv(w, u, if answered then Idle else p.wait);
    } else {
      TakeOffKeepsInv(w, u, if answered || !w.items[p.picking].owned then Idle else p.wait);
    }
  }

  lemma ReplyKeepsInv(w: World, k: nat, ret: nat, body: Body, answered: bool)
    requires Inv(w)
    ensures Inv(DoReply(w, k, ret, body, answered))
  {
    if k in w.reqs {
      var r, t := w.reqs[k], w.(reqs := w.reqs - {k});
      ForgetKeepsInv(w, k);
      if r.uid in w.players && w.players[r.uid].btl == r.grp {
        ReplyFindsItsItem(w, k);
        assert ReqOk(k, r, w.players, w.battles, w.items, w.next);
        CallbackKeepsInv(t, r.uid, ret, answered);
      }
    }
  }

  lemma StartKeepsInv(w: World, b: nat)
    requires Inv(w) && b in w.battles
    ensures Inv(w.(battles := w.battles[b := w.battles[b].(started := true)]))
  {
    var t := w.(battles := w.battles[b := w.battles[b].(started := true)]);
    StartKeepsItems(w, b);
    forall k | k in t.reqs
      ensures ReqOk(k, t.reqs[k], t.players, t.battles, t.items, t.next)
    {
      assert ReqOk(k, w.reqs[k], w.players, w.battles, w.items, w.next);
    }
  }

  lemma DropKeepsInv(w: World, b: nat, m: nat, owned: bool)
    requires Inv(w) && b in w.battles && w.battles[b].started
    ensures Inv(w.(items := w.items[w.next := Item(b, m, owned, true)], next := w.next + 1))
  {
    var t := w.(items := w.items[w.next := Item(b, m, owned, true)], next := w.next + 1);
    DropKeepsItems(w, b, m, owned);
    forall k | k in t.reqs
      ensures ReqOk(k, t.reqs[k], t.players, t.battles, t.items, t.next)
    {
      assert ReqOk(k, w.reqs[k], w.players, w.battles, w.items, w.next);
    }
  }

  // ---- What the operations do to the items -----------------------------

  /**
    A pick reserves exactly a free item within reach on the player's map, and a
    request goes out exactly for such an item; otherwise no item changes. With
    the proxy down the item stays reserved although the player is answered.
   */
  lemma PickReservesIff(w: World, u: Uid, grp: nat, i: nat, near: bool, net: Net, answered: bool)
    requires Inv(w) && Runs(w, u, grp)
    ensures var t, p := Step(w, PickUp(u, grp, i, near, net, answered)), w.players[u];
            var takes := i in w.items && w.items[i].btl == grp && w.items[i].place == p.place
                      && w.items[i].free && near;
            && (takes ==> t.items == w.items[i := w.items[i].(free := false)] && t.players[u].picking == i)
            && (!takes ==> t.items == w.items && t.players[u].picking == p.picking)
            && (w.next in t.reqs <==> takes && net == Sent)
            && (w.next in t.reqs ==> t.reqs == w.reqs[w.next := Req(u, grp, p.born, i)] && t.players[u].wait == Pick)
            && (w.next !in t.reqs ==> t.reqs == w.reqs)
            && t.players[u].wait == (if takes && net != ProxyDown then Pick else if answered then Idle else Pick)
            && t.erased == w.erased && t.players.Keys == w.players.Keys
            && forall v :: v in w.players && v != u ==> t.players[v] == w.players[v]
  {
    assert w.next !in w.reqs by {
      assert w.next in w.reqs ==> ReqOk(w.next, w.reqs[w.next], w.players, w.battles, w.items, w.next);
    }
  }

  /**
    A well-formed reply that reaches its player settles exactly the item the
    request reserved: off the map, back on the map for everybody, or, on a
    timeout, still reserved by the player, who may nevertheless go on.
   */
  lemma ReplySettlesItsItem(w: World, k: nat, ret: nat, body: Body, answered: bool)
    requires Inv(w) && k in w.reqs && w.reqs[k].uid in w.players && w.players[w.reqs[k].uid].btl == w.reqs[k].grp
    requires body == Exact || (body == Empty && ret != 0)
    ensures var t, u, i := Step(w, Reply(k, ret, body, answered)), w.reqs[k].uid, w.reqs[k].item;
            && u in t.players && !t.lost && t.reqs == w.reqs - {k}
            && (ret == 0 ==> t.erased == w.erased + [i] && t.items == w.items - {i} && t.players[u].picking == 0)
            && (ret != 0 ==> t.erased == w.erased)
            && (ret != 0 && ret != DB_TIMEOUT ==> i in t.items && t.items == w.items[i := w.items[i].(free := true)]
                                                  && t.players[u].picking == 0)
            && (ret == DB_TIMEOUT ==> t.items == w.items && t.players[u].picking == i && !t.items[i].free)
            && (answered ==> t.players[u].wait == Idle)
            && t.players.Keys == w.players.Keys && forall v :: v in w.players && v != u ==> t.players[v] == w.players[v]
  {
    ReplyFindsItsItem(w, k);
    assert ReqOk(k, w.reqs[k], w.players, w.battles, w.items, w.next);
  }

  // ---- The protocol is safe exactly while ids are not aliased ----------

  lemma CreateIff(w: World, u: Uid, team: bool)
    requires Inv(w)
    ensures Inv(Step(w, Create(u, team))) <==> Unaliased(w, Create(u, team))
  {
    SeatKeepsInv(w, u);
    OpenIff(Seat(w, u), u, team);
  }

  lemma RestartIff(w: World, u: Uid)
    requires Inv(w)
    ensures Inv(Step(w, Restart(u))) <==> Unaliased(w, Restart(u))
  {
    if MayRestart(w, u) {
      UnseatKeepsInv(w, u);
      OpenIff(Unseat(w, u), u, false);
    }
  }

  lemma CommandKeepsInv(w: World, u: Uid, grp: nat)
    requires Inv(w)
    ensures Inv(Step(w, Command(u, grp))) && Inv(Step(w, Done(u)))
  {
    if u in w.players && w.players[u].wait != Pick {
      NotPickingAsksNothing(w, u);
      ChangeKeepsInv(w, u, w.players[u].(wait := Other));
      ChangeKeepsInv(w, u, w.players[u].(wait := Idle));
    }
  }

  lemma EnterMapKeepsInv(w: World, u: Uid, grp: nat, m: nat)
    requires Inv(w)
    ensures Inv(Step(w, EnterMap(u, grp, m)))
  {
    if Runs(w, u, grp) {
      NotPickingAsksNothing(w, u);
      ChangeKeepsInv(w, u, w.players[u].(place := m));
    }
  }

  /**
    In every interleaving: an event keeps the invariant exactly if it gives out
    no id that an outstanding request still carries for the new battle's player,
    or for any player at all if others may join.
   */
  lemma StepKeepsInvIff(w: World, e: Event)
    requires Inv(w)
    ensures Inv(Step(w, e)) <==> Unaliased(w, e)
  {
    match e
    case Create(u, team) => CreateIff(w, u, team);
    case Restart(u) => RestartIff(w, u);
    case Join(u, b, full) => JoinKeepsInv(w, u, b, full);
    case Leave(u) => EndKeepsInv(w, u);
    case StartBattle(b) => if b in w.battles { StartKeepsInv(w, b); }
    case Drop(b, m, owned) => if b in w.battles && w.battles[b].started { DropKeepsInv(w, b, m, owned); }
    case Command(u, grp) => CommandKeepsInv(w, u, grp);
    case Done(u) => CommandKeepsInv(w, u, 0);
    case EnterMap(u, grp, m) => EnterMapKeepsInv(w, u, grp, m);
    case PickUp(u, grp, i, near, net, answered) => if Runs(w, u, grp) { PickKeepsInv(w, u, i, near, net, answered); }
    case Reply(k, ret, body, answered) => ReplyKeepsInv(w, k, ret, body, answered);
  }

  ghost predicate UnaliasedRun(w: World, es: seq<Event>)
    decreases |es|
  {
    es == [] || (Unaliased(w, es[0]) && UnaliasedRun(Step(w, es[0]), es[1..]))
  }

  /** Whole runs: as long as no id is aliased, no reply misses its item. */
  lemma {:induction false} NoReplyMissesItsItem(w: World, es: seq<Event>)
    requires Inv(w) && UnaliasedRun(w, es)
    ensures Inv(Run(w, es)) && !Run(w, es).lost
    decreases |es|
  {
    if es != [] {
      StepKeepsInvIff(w, es[0]);
      NoReplyMissesItsItem(Step(w, es[0]), es[1..]);
    }
  }

  lemma InitSatisfiesInv(n: nat)
    ensures Inv(Init(n)) && NextIdsClean(Init(n), n)
  {
    InitSatisfiesItemInv(n);
  }

  // ---- How long that lasts: first in, first out ------------------------

  /** No outstanding request carries one of the next `m` ids to be issued. */
  ghost predicate NextIdsClean(w: World, m: nat) {
    m <= |w.pool.free| && forall k :: k in w.reqs ==> w.reqs[k].grp !in w.pool.free[..m]
  }

  function Creations(es: seq<Event>): nat {
    if es == [] then 0 else (if es[0].Create? || es[0].Restart? then 1 else 0) + Creations(es[1..])
  }

  /** How many replies of the run report a timeout of the database. */
  function Timeouts(es: seq<Event>): nat {
    if es == [] then 0 else (if es[0].Reply? && es[0].ret == DB_TIMEOUT then 1 else 0) + Timeouts(es[1..])
  }

  lemma CleanAfterGive(w: World, b: nat, m: nat)
    requires NextIdsClean(w, m)
    ensures NextIdsClean(Destroy(w, b), m)
  {
    assert Destroy(w, b).pool.free[..m] == w.pool.free[..m];
  }

  lemma CleanAfterEnd(w: World, u: Uid, m: nat)
    requires NextIdsClean(w, m)
    ensures NextIdsClean(End(w, u), m) && NextIdsClean(Seat(w, u), m)
  {
    if u in w.players && w.players[u].btl in w.battles && Alone(w, u, w.players[u].btl) {
      CleanAfterGive(w.(players := w.players - {u}), w.players[u].btl, m);
    }
  }

  lemma CleanAfterOpen(w: World, u: Uid, team: bool, m: nat)
    requires NextIdsClean(w, m) && m > 0 && u in w.players
    ensures SafeId(w, u, team) && NextIdsClean(Open(w, u, team), m - 1)
  {
    var front, t := w.pool.free[..m], Open(w, u, team);
    assert w.pool.free[0] == front[0] && w.pool.free[0] in front;
    assert t.pool.free[..m - 1] == front[1..];
    assert forall x :: x in front[1..] ==> x in front;
  }

  lemma CleanAfterPick(w: World, u: Uid, grp: nat, i: nat, near: bool, net: Net, answered: bool, m: nat)
    requires Inv(w) && NextIdsClean(w, m)
    ensures NextIdsClean(Step(w, PickUp(u, grp, i, near, net, answered)), m)
  {
    if Runs(w, u, grp) {
      assert w.players[u].btl !in w.pool.free;
      assert forall x :: x in w.pool.free[..m] ==> x in w.pool.free;
      assert DoPick(w, u, i, near, net, answered).pool == w.pool;
    }
  }

  lemma CleanAfterRestart(w: World, u: Uid, m: nat)
    requires NextIdsClean(w, m) && m > 0
    ensures Unaliased(w, Restart(u)) && NextIdsClean(DoRestart(w, u), m - 1)
  {
    if MayRestart(w, u) {
      CleanAfterGive(w, w.players[u].btl, m);
      CleanAfterOpen(Unseat(w, u), u, false, m);
    } else {
      assert forall x :: x in w.pool.free[..m - 1] ==> x in w.pool.free[..m];
    }
  }

  lemma CleanAfterJoin(w: World, u: Uid, b: nat, full: bool, m: nat)
    requires NextIdsClean(w, m)
    ensures NextIdsClean(DoJoin(w, u, b, full), m)
  {
    CleanAfterEnd(w, u, m);
    CleanAfterEnd(Seat(w, u), u, m);
  }

  lemma CleanAfterReply(w: World, k: nat, ret: nat, body: Body, answered: bool, m: nat)
    requires NextIdsClean(w, m)
    ensures NextIdsClean(DoReply(w, k, ret, body, answered), m)
  {
    assert DoReply(w, k, ret, body, answered).pool == w.pool;
  }

  /** One event uses up at most one of the clean ids, and only if it creates a battle. */
  lemma CleanStep(w: World, e: Event, m: nat)
    requires Inv(w) && NextIdsClean(w, m) && (e.Create? || e.Restart? ==> m > 0)
    ensures Unaliased(w, e) && NextIdsClean(Step(w, e), if e.Create? || e.Restart? then m - 1 else m)
  {
    match e
    case Create(u, team) => CleanAfterEnd(w, u, m); CleanAfterOpen(Seat(w, u), u, team, m);
    case Restart(u) => CleanAfterRestart(w, u, m);
    case Join(u, b, full) => CleanAfterJoin(w, u, b, full, m);
    case Leave(u) => CleanAfterEnd(w, u, m);
    case PickUp(u, grp, i, near, net, answered) => CleanAfterPick(w, u, grp, i, near, net, answered, m);
    case Reply(k, ret, body, answered) => CleanAfterReply(w, k, ret, body, answered, m);
    case _ =>
  }

  /**
    Whatever the events: as long as no outstanding request carries one of the
    next m ids and at most m battles are created, no id is aliased. A server
    that starts with n ids is safe for its first n battles without any
    assumption on the database.
   */
  lemma {:induction false} SafeUntilTheIdsComeRound(w: World, es: seq<Event>, m: nat)
    requires Inv(w) && NextIdsClean(w, m) && Creations(es) <= m
    ensures UnaliasedRun(w, es) && Inv(Run(w, es))
    decreases |es|
  {
    if es != [] {
      CleanStep(w, es[0], m);
      StepKeepsInvIff(w, es[0]);
      SafeUntilTheIdsComeRound(Step(w, es[0]), es[1..], if es[0].Create? || es[0].Restart? then m - 1 else m);
    }
  }

  // ---- And what happens after ------------------------------------------

  /** An id under which a request of `u` is still out reaches `u` in its new battle, where it has reserved nothing. */
  lemma AliasedReplyIsLost(w: World, u: Uid, k: nat)
    requires u in w.players && k in w.reqs && w.reqs[k].uid == u && w.reqs[k].grp == w.players[u].btl != 0
    requires w.players[u].picking == 0 && 0 !in w.items
    ensures Step(w, Reply(k, 0, Exact, true)).lost
  {
  }

  lemma JoinUnderAnOldId(w: World, v: Uid, b: nat, u: Uid)
    requires 0 !in w.items && b in w.battles && w.battles[b].Joinable() && u in w.players
             && u != v && w.players[u].btl == b
    ensures var t := DoJoin(w, v, b, false);
            v in t.players && t.players[v].btl == b && t.players[v].picking == 0 && t.reqs == w.reqs && 0 !in t.items
  {
    assert !Alone(w, v, b);
  }

  /** A battle opened under an unsafe id: one reply, or one join and one reply, lose the item. */
  lemma UnsafeIdLosesAReply(s: World, u: Uid, team: bool) returns (es: seq<Event>)
    requires Inv(s) && u in s.players && s.players[u].btl == 0 && s.players[u].picking == 0 && !SafeId(s, u, team)
    ensures 1 <= |es| <= 2 && Creations(es) == 0 && Run(Open(s, u, team), es).lost
  {
    OpenKeepsItems(s, u, team);
    var b, t := s.pool.free[0], Open(s, u, team);
    var k :| k in s.reqs && s.reqs[k].grp == b && (s.reqs[k].uid == u || team);
    if s.reqs[k].uid == u {
      AliasedReplyIsLost(t, u, k);
      es := [Reply(k, 0, Exact, true)];
      RunOne(t, es[0]);
      assert es[1..] == [];
    } else {
      var v := s.reqs[k].uid;
      JoinUnderAnOldId(t, v, b, u);
      AliasedReplyIsLost(DoJoin(t, v, b, false), v, k);
      es := [Join(v, b, false), Reply(k, 0, Exact, true)];
      RunTwo(t, es[0], es[1]);
      assert es[1..] == [es[1]] && es[1..][1..] == [];
    }
  }

  /**
    The condition cannot be weakened: after an event that aliases an id, one
    reply, or one join and one reply, reach the end iterator.
   */
  lemma AliasedIdsLoseReplies(w: World, e: Event) returns (es: seq<Event>)
    requires Inv(w) && !Unaliased(w, e)
    ensures 1 <= |es| <= 2 && Creations(es) == 0 && Run(Step(w, e), es).lost
  {
    if e.Create? {
      SeatKeepsInv(w, e.u);
      es := UnsafeIdLosesAReply(Seat(w, e.u), e.u, e.team);
    } else {
      UnseatKeepsInv(w, e.u);
      es := UnsafeIdLosesAReply(Unseat(w, e.u), e.u, false);
    }
  }

  lemma RunOne(w: World, e: Event)
    ensures Run(w, [e]) == Step(w, e)
  {
    assert [e][1..] == [];
  }

  lemma RunTwo(w: World, e: Event, f: Event)
    ensures Run(w, [e, f]) == Step(Step(w, e), f)
  {
    assert [e, f][1..] == [f];
    RunOne(Step(w, e), f);
  }

  // ---- Every server gets there -----------------------------------------

  lemma {:induction false} RunAppends(w: World, es: seq<Event>, fs: seq<Event>)
    ensures Run(w, es + fs) == Run(Run(w, es), fs)
    ensures Creations(es + fs) == Creations(es) + Creations(fs) && Timeouts(es + fs) == Timeouts(es) + Timeouts(fs)
    decreases |es|
  {
    if es == [] {
      assert es + fs == fs;
    } else {
      assert (es + fs)[1..] == es[1..] + fs;
      RunAppends(Step(w, es[0]), es[1..], fs);
    }
  }

  lemma FirstBattle(n: nat) returns (es: seq<Event>)
    requires n >= 1
    ensures Creations(es) == 1 && Timeouts(es) == 0
    ensures var t := Run(Init(n), es);
            && t.players == map[7 := Player(1, Other, 1, 0, 0)] && t.battles == map[1 := Battle(false, false)]
            && t.items == map[] && t.reqs == map[] && t.next == 2 && t.pool.free == UpTo(n)[1..]
  {
    var s := Seat(Init(n), 7);
    assert s.players == map[7 := Player(1, Other, 0, 0, 0)];
    es := [Create(7, false)];
    RunOne(Init(n), es[0]);
    assert es[1..] == [];
  }

  lemma FirstDrop(w: World) returns (es: seq<Event>)
    requires w.battles == map[1 := Battle(false, false)] && w.items == map[] && w.next == 2
    ensures Creations(es) == 0 && Timeouts(es) == 0
    ensures Run(w, es) == w.(battles := map[1 := Battle(false, true)],
                          items := map[2 := Item(1, 0, false, true)], next := 3)
  {
    es := [StartBattle(1), Drop(1, 0, false)];
    RunTwo(w, es[0], es[1]);
    assert es[1..] == [es[1]] && es[1..][1..] == [];
  }

  lemma FirstPick(w: World) returns (es: seq<Event>)
    requires w.players == map[7 := Player(1, Other, 1, 0, 0)] && w.battles == map[1 := Battle(false, true)]
    requires w.items == map[2 := Item(1, 0, false, true)] && w.reqs == map[] && w.next == 3
    ensures Creations(es) == 0 && Timeouts(es) == 0
    ensures var t := Run(w, es);
            && t.reqs == map[3 := Req(7, 1, 1, 2)] && t.pool == w.pool && t.battles == w.battles
            && t.players == map[7 := Player(1, Pick, 1, 0, 2)]
  {
    es := [Done(7), PickUp(7, 1, 2, true, Sent, true)];
    RunTwo(w, es[0], es[1]);
    assert es[1..] == [es[1]] && es[1..][1..] == [];
  }

  /** The picker is gone, its request is still out, and its battle's id is at place `i` of the free list. */
  ghost predicate WaitsAt(w: World, i: nat) {
    && i < |w.pool.free| && w.pool.free[i] == 1 && 7 !in w.players
    && 3 in w.reqs && w.reqs[3].uid == 7 && w.reqs[3].grp == 1
  }

  lemma PickerLeaves(w: World) returns (es: seq<Event>)
    requires w.players == map[7 := Player(1, Pick, 1, 0, 2)] && 1 in w.battles && w.reqs == map[3 := Req(7, 1, 1, 2)]
    ensures Creations(es) == 0 && Timeouts(es) == 0 && WaitsAt(Run(w, es), |w.pool.free|)
  {
    es := [Leave(7)];
    RunOne(w, es[0]);
    assert es[1..] == [];
  }

  /** Another player that keeps starting over brings the id forward by one place each time. */
  lemma OnePlaceForward(w: World, i: nat)
    requires WaitsAt(w, i) && i > 0
    ensures WaitsAt(Step(w, Create(8, false)), i - 1)
  {
    var t := Seat(w, 8);
    assert i < |t.pool.free| && t.pool.free[i] == 1;
    assert t.pool.free[1..][i - 1] == 1;
  }

  lemma {:induction false} ToTheFront(w: World, i: nat) returns (es: seq<Event>)
    requires WaitsAt(w, i)
    ensures Creations(es) == i && Timeouts(es) == 0 && WaitsAt(Run(w, es), 0)
    decreases i
  {
    if i == 0 {
      es := [];
    } else {
      OnePlaceForward(w, i);
      var rest := ToTheFront(Step(w, Create(8, false)), i - 1);
      es := [Create(8, false)] + rest;
      assert es[1..] == rest;
    }
  }

  lemma FrontIsUnsafe(w: World)
    requires WaitsAt(w, 0)
    ensures !Unaliased(w, Create(7, false))
  {
    assert Seat(w, 7).pool == w.pool && Seat(w, 7).reqs == w.reqs;
  }

  /**
    The bound is tight for every server: with n ids, some run of n battles that
    is safe throughout leaves a state in which the next battle aliases an id.
   */
  lemma EveryServerGetsThere(n: nat) returns (es: seq<Event>)
    requires n >= 1
    ensures Creations(es) == n && Inv(Run(Init(n), es)) && !Unaliased(Run(Init(n), es), Create(7, false))
    ensures WaitsAt(Run(Init(n), es), 0) && Timeouts(es) == 0
  {
    var a := FirstBattle(n);
    var w1 := Run(Init(n), a);
    var b := FirstDrop(w1);
    var w2 := Run(w1, b);
    var c := FirstPick(w2);
    var w3 := Run(w2, c);
    var d := PickerLeaves(w3);
    var e := ToTheFront(Run(w3, d), n - 1);
    FrontIsUnsafe(Run(Run(w3, d), e));
    RunAppends(Init(n), a, b);
    RunAppends(Init(n), a + b, c);
    RunAppends(Init(n), a + b + c, d);
    RunAppends(Init(n), a + b + c + d, e);
    es := a + b + c + d + e;
    InitSatisfiesInv(n);
    SafeUntilTheIdsComeRound(Init(n), es, n);
  }

  /** So on the source's server, as on any other, some run ends in a reply that misses its item. */
  lemma SomeReplyIsLost(n: nat) returns (es: seq<Event>)
    requires n >= 1
    ensures Run(Init(n), es).lost && Creations(es) == n + 1
  {
    var a := EveryServerGetsThere(n);
    var w, c := Run(Init(n), a), Create(7, false);
    var b := AliasedIdsLoseReplies(w, c);
    RunAppends(Init(n), a, [c]);
    RunOne(w, c);
    RunAppends(Init(n), a + [c], b);
    es := a + [c] + b;
    assert [c][1..] == [];
  }
}
