/**
  What every event of the picking protocol does to the whole state, told from
  the packet and the state alone (gf/battle_svr/player.cpp, dbproxy.cpp).
 */
module PickOutcomes {
  import opened IdPool
  import opened PickItems
  import opened PickProtocol
  import opened PickReplies

  /**
    A pick runs only for an idle player that sits in the battle its packet names;
    it takes a free item within reach on the player's map; and a request goes out
    exactly if it took one and the proxy could be reached.
   */
  lemma PickDecides(w: World, u: Uid, grp: nat, i: nat, near: bool, net: Net, answered: bool)
    requires Inv(w)
    ensures var t := Step(w, PickUp(u, grp, i, near, net, answered));
            if !(u in w.players && w.players[u].wait == Idle && w.players[u].btl == grp && grp in w.battles) then t == w
            else
              var p := w.players[u];
              var takes := near && i in w.items && w.items[i] == Item(grp, p.place, w.items[i].owned, true);
              var waits := !answered || (takes && net != ProxyDown);
              && t.players == w.players[u := Player(p.born, if waits then Pick else Idle, grp, p.place,
                                                    if takes then i else p.picking)]
              && t.items == (if takes then w.items[i := Item(grp, p.place, w.items[i].owned, false)] else w.items)
              && t.reqs == (if takes && net == Sent then w.reqs[w.next := Req(u, grp, p.born, i)] else w.reqs)
              && t.next == (if takes && net == Sent then w.next + 1 else w.next)
              && t == w.(players := t.players, items := t.items, reqs := t.reqs, next := t.next)
  {
  }

  /** A body as declared, or no body for a refusal or a timeout. */
  predicate Readable(ret: nat, body: Body) { body == Exact || (body == Empty && ret != 0) }

  /**
    A reply takes its request off the list. It does nothing else if its sender
    left that battle, or if its body is neither as declared nor, with an error
    code, empty. Otherwise it takes the asked item off the map, leaves it reserved
    after a timeout, or puts it back.
   */
  lemma ReplyDecides(w: World, k: nat, ret: nat, body: Body, answered: bool)
    requires Inv(w) && k in w.reqs
    ensures var t, r, rest := Step(w, Reply(k, ret, body, answered)), w.reqs[k], w.(reqs := w.reqs - {k});
            var reaches := r.uid in w.players && w.players[r.uid].btl == r.grp;
            if !reaches || !Readable(ret, body) then t == rest
            else
              var p, i, wait := w.players[r.uid], r.item, if answered then Idle else Pick;
              && i in w.items && w.items[i] == Item(p.btl, p.place, w.items[i].owned, false)
              && (ret == 0 ==>
                    var after := if w.items[i].owned then wait else Idle;
                    t == rest.(items := w.items - {i}, erased := w.erased + [i],
                               players := w.players[r.uid := Player(p.born, after, p.btl, p.place, 0)]))
              && (ret == 1017 ==>
                    t == rest.(players := w.players[r.uid := Player(p.born, wait, p.btl, p.place, i)]))
              && (ret != 0 && ret != 1017 ==>
                    t == rest.(items := w.items[i := Item(p.btl, p.place, w.items[i].owned, true)],
                               players := w.players[r.uid := Player(p.born, wait, p.btl, p.place, 0)]))
  {
    var r := w.reqs[k];
    assert ReqOk(k, r, w.players, w.battles, w.items, w.next);
    if r.uid in w.players && w.players[r.uid].btl == r.grp {
      ReplyFindsItsItem(w, k);
    }
  }

  lemma UnknownReplyDoesNothing(w: World, k: nat, ret: nat, body: Body, answered: bool)
    ensures k !in w.reqs ==> Step(w, Reply(k, ret, body, answered)) == w
  {
  }

  /** Who leaves takes its battle along, whose id goes to the end of the list, exactly if it was the last one there. */
  lemma LeaveDecides(w: World, u: Uid)
    requires ItemInv(w)
    ensures var t := Step(w, Leave(u));
            if u !in w.players then t == w
            else
              var b := w.players[u].btl;
              var ends := b in w.battles && forall v :: v in w.players && w.players[v].btl == b ==> v == u;
              && t.players == w.players - {u} && t.reqs == w.reqs && t.next == w.next && t.erased == w.erased
              && t.lost == w.lost
              && t.pool.free == (if ends then w.pool.free + [b] else w.pool.free)
              && t.battles == (if ends then w.battles - {b} else w.battles)
              && (forall i :: i in t.items <==> i in w.items && !(ends && w.items[i].btl == b))
              && (forall i :: i in t.items ==> t.items[i] == w.items[i])
  {
  }

  /** A battle opened by a newcomer to `d`: it gets the front id, or none if there is none. */
  lemma OpenFrom(d: World, u: Uid, team: bool)
    requires ItemInv(d)
    ensures var s := d.(players := d.players[u := Player(d.next, Other, 0, 0, 0)], next := d.next + 1);
            var t, b := Open(s, u, team), if d.pool.free == [] then 0 else d.pool.free[0];
            && t.players == d.players[u := Player(d.next, Other, b, 0, 0)]
            && t.battles == (if b == 0 then d.battles else d.battles[b := Battle(team, false)])
            && t.pool.free == (if b == 0 then [] else d.pool.free[1..])
            && t == d.(players := t.players, next := d.next + 1, battles := t.battles, pool := t.pool)
  {
    assert d.pool.free != [] ==> d.pool.free[0] in d.pool.free;
  }

  /** A new battle: the previous incarnation leaves, and the new one gets the front id, or none if there is none. */
  lemma CreateDecides(w: World, u: Uid, team: bool)
    requires ItemInv(w)
    ensures var t, d := Step(w, Create(u, team)), Step(w, Leave(u));
            var b := if d.pool.free == [] then 0 else d.pool.free[0];
            && t.players == d.players[u := Player(d.next, Other, b, 0, 0)]
            && t.battles == (if b == 0 then d.battles else d.battles[b := Battle(team, false)])
            && t.pool.free == (if b == 0 then [] else d.pool.free[1..])
            && t == d.(players := t.players, next := d.next + 1, battles := t.battles, pool := t.pool)
  {
    EndKeepsItems(w, u);
    OpenFrom(End(w, u), u, team);
  }

  /** Who sits where after a join into battle `b` of `d`. */
  function Joined(d: World, u: Uid, b: nat, full: bool): map<Uid, Player> {
    if b in d.battles && d.battles[b].team && !d.battles[b].started
    then d.players[u := Player(d.next, Other, if full then 0 else b, 0, 0)]
    else d.players
  }

  lemma JoinFrom(d: World, u: Uid, b: nat, full: bool)
    requires u !in d.players && 0 !in d.battles
    ensures var s := d.(players := d.players[u := Player(d.next, Other, 0, 0, 0)], next := d.next + 1);
            (if !(b in s.battles && s.battles[b].Joinable()) then End(s, u)
             else if full then s else s.(players := s.players[u := s.players[u].(btl := b)]))
            == d.(players := Joined(d, u, b, full), next := d.next + 1)
  {
    assert d.players[u := Player(d.next, Other, 0, 0, 0)] - {u} == d.players;
  }

  /**
    A join enters a team battle that has not started; if that is full the player
    stays without a battle, and otherwise it is ended.
   */
  lemma JoinDecides(w: World, u: Uid, b: nat, full: bool)
    requires ItemInv(w)
    ensures var d := Step(w, Leave(u));
            Step(w, Join(u, b, full)) == d.(players := Joined(d, u, b, full), next := d.next + 1)
  {
    EndKeepsItems(w, u);
    JoinFrom(End(w, u), u, b, full);
  }

  /**
    A restart runs only for an idle player of a solo battle. The battle and its
    drops end, its id goes to the end of the list, and the player, who holds
    nothing now, gets the front one.
   */
  lemma RestartDecides(w: World, u: Uid)
    requires ItemInv(w)
    ensures var t := Step(w, Restart(u));
            if !(u in w.players && w.players[u].wait == Idle && w.players[u].btl in w.battles
                 && !w.battles[w.players[u].btl].team) then t == w
            else
              var p := w.players[u];
              var free := w.pool.free + [p.btl];
              && t.players == w.players[u := Player(p.born, Other, free[0], 0, 0)]
              && t.battles == (w.battles - {p.btl})[free[0] := Battle(false, false)] && t.pool.free == free[1..]
              && (forall i :: i in t.items <==> i in w.items && w.items[i].btl != p.btl)
              && (forall i :: i in t.items ==> t.items[i] == w.items[i])
              && t.reqs == w.reqs && t.next == w.next && t.erased == w.erased && t.lost == w.lost
  {
  }

  /** The remaining commands: who may run one, and the one field that each changes. */
  lemma CommandsDecide(w: World, u: Uid, grp: nat, m: nat)
    ensures var runs := u in w.players && w.players[u].wait == Idle && w.players[u].btl == grp && grp in w.battles;
            && Step(w, Command(u, grp))
               == (if runs then w.(players := w.players[u := w.players[u].(wait := Other)]) else w)
            && Step(w, EnterMap(u, grp, m))
               == (if runs then w.(players := w.players[u := w.players[u].(place := m)]) else w)
    ensures Step(w, Done(u)) == (if u in w.players && w.players[u].wait == Other
                                 then w.(players := w.players[u := w.players[u].(wait := Idle)]) else w)
  {
  }

  /** Drops fall only in battles that have started, free to pick. */
  lemma DropDecides(w: World, b: nat, m: nat, owned: bool)
    ensures Step(w, Drop(b, m, owned)) ==
              if b in w.battles && w.battles[b].started
              then w.(items := w.items[w.next := Item(b, m, owned, true)], next := w.next + 1) else w
    ensures Step(w, StartBattle(b)) ==
              if b in w.battles then w.(battles := w.battles[b := Battle(w.battles[b].team, true)]) else w
  {
  }
}
