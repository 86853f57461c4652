/**
  The picking protocol as the server runs it: players, battles and drops are
  fields changed in place; the requests under way are the network's.
 */
module PickServer {
  import opened IdPool
  import opened PickItems
  import opened PickProtocol
  import opened PickReplies

  class Server {
    const battleIds: BattleIdList
    var players: map<Uid, Player>
    var battles: map<nat, Battle>
    var items: map<nat, Item>
    var next: nat
    ghost var reqs: map<nat, Req>
    ghost var erased: seq<nat>
    ghost var lost: bool

    ghost function State(): World
      reads this, battleIds
    {
      World(players, battleIds.State(), battles, items, reqs, next, erased, lost)
    }

    constructor ()
      ensures State() == Init(IDS) && fresh(battleIds)
    {
      battleIds := new BattleIdList();
      players, battles, items, next := map[], map[], map[], 1;
      reqs, erased, lost := map[], [], false;
    }

    /** del_player, and the battle with its last player. */
    method DelPlayer(u: Uid)
      modifies this, battleIds
      ensures State() == End(old(State()), u)
    {
      if u !in players {
        return;
      }
      var b := players[u].btl;
      var last := forall v :: v in players && v != u ==> players[v].btl != b;
      players := players - {u};
      if b in battles && last {
        battleIds.ReleaseBattleId(b);
        battles := battles - {b};
        items := map i | i in items && items[i].btl != b :: items[i];
      }
    }

    /** A battle-starting command replaces the player. */
    method AddPlayer(u: Uid)
      modifies this, battleIds
      ensures State() == Seat(old(State()), u)
    {
      DelPlayer(u);
      players := players[u := Player(next, Other, 0, 0, 0)];
      next := next + 1;
    }

    /** A battle of its own for `u`, if an id is free. */
    method OpenBattle(u: Uid, team: bool)
      requires u in players
      modifies this, battleIds
      ensures State() == Open(old(State()), u, team)
    {
      if battleIds.ids == [] {
        return;
      }
      var b := battleIds.ProduceBattleId();
      battles := battles[b := Battle(team, false)];
      players := players[u := players[u].(btl := b, place := 0, picking := 0, wait := Other)];
    }

    method CreateBattle(u: Uid, team: bool)
      modifies this, battleIds
      ensures State() == Step(old(State()), Create(u, team))
    {
      AddPlayer(u);
      OpenBattle(u, team);
    }

    method JoinBattle(u: Uid, b: nat, full: bool)
      modifies this, battleIds
      ensures State() == Step(old(State()), Join(u, b, full))
    {
      AddPlayer(u);
      if b !in battles || !battles[b].Joinable() {
        DelPlayer(u);
      } else if !full {
        players := players[u := players[u].(btl := b)];
      }
    }

    method RestartBattle(u: Uid)
      modifies this, battleIds
      ensures State() == Step(old(State()), Restart(u))
    {
      if u !in players || players[u].wait != Idle || players[u].btl !in battles || battles[players[u].btl].team {
        return;
      }
      var b := players[u].btl;
      battleIds.ReleaseBattleId(b);
      battles := battles - {b};
      items := map i | i in items && items[i].btl != b :: items[i];
      players := players[u := players[u].(btl := 0, place := 0, picking := 0)];
      OpenBattle(u, false);
    }

    method StartTheBattle(b: nat)
      modifies this`battles
      ensures State() == Step(old(State()), StartBattle(b))
    {
      if b in battles {
        battles := battles[b := battles[b].(started := true)];
      }
    }

    method DropItem(b: nat, m: nat, owned: bool)
      modifies this
      ensures State() == Step(old(State()), Drop(b, m, owned))
    {
      if b in battles && battles[b].started {
        items := items[next := Item(b, m, owned, true)];
        next := next + 1;
      }
    }

    method EnterTheMap(u: Uid, grp: nat, m: nat)
      modifies this`players
      ensures State() == Step(old(State()), EnterMap(u, grp, m))
    {
      if u in players && players[u].wait == Idle && players[u].btl in battles && players[u].btl == grp {
        players := players[u := players[u].(place := m)];
      }
    }

    /** Any other command: it takes the slot until it is answered. */
    method OtherCommand(u: Uid, grp: nat)
      modifies this`players
      ensures State() == Step(old(State()), Command(u, grp))
    {
      if u in players && players[u].wait == Idle && players[u].btl in battles && players[u].btl == grp {
        players := players[u := players[u].(wait := Other)];
      }
    }

    method Answered(u: Uid)
      modifies this`players
      ensures State() == Step(old(State()), Done(u))
    {
      if u in players && players[u].wait == Other {
        players := players[u := players[u].(wait := Idle)];
      }
    }

    method Respond(u: Uid, answered: bool)
      requires u in players
      modifies this`players
      ensures players == if answered then old(players)[u := old(players[u]).(wait := Idle)] else old(players)
    {
      if answered {
        players := players[u := players[u].(wait := Idle)];
      }
    }

    method ReserveItem(u: Uid, i: nat)
      requires u in players && i in items
      modifies this`players, this`items
      ensures State() == Reserve(old(State()), u, i)
    {
      players := players[u := players[u].(wait := Pick, picking := i)];
      items := items[i := items[i].(free := false)];
    }

    /** send_request_to_db for the reserved item `i`. */
    method SendRequestToDb(u: Uid, i: nat, net: Net, answered: bool)
      requires u in players
      modifies this
      ensures var w, p := old(State()), old(players[u]);
              State() == match net
                         case Sent => w.(reqs := w.reqs[w.next := Req(u, p.btl, p.born, i)], next := w.next + 1)
                         case Dropped => w
                         case ProxyDown => if answered then SetWait(w, u, Idle) else w
    {
      if net == ProxyDown {
        Respond(u, answered);
      } else if net == Sent {
        reqs := reqs[next := Req(u, players[u].btl, players[u].born, i)];
        next := next + 1;
      }
    }

    /** dispatch puts the command into the slot if the player may run it. */
    method PickItem(u: Uid, grp: nat, i: nat, near: bool, net: Net, answered: bool)
      modifies this
      ensures State() == Step(old(State()), PickUp(u, grp, i, near, net, answered))
    {
      if u in players && players[u].wait == Idle && players[u].btl in battles && players[u].btl == grp {
        TryToPick(u, i, near, net, answered);
      }
    }

    /** Player::pick_item */
    method TryToPick(u: Uid, i: nat, near: bool, net: Net, answered: bool)
      requires u in players
      modifies this
      ensures State() == DoPick(old(State()), u, i, near, net, answered)
    {
      var flag := i in items && items[i].btl == players[u].btl && items[i].place == players[u].place;
      if flag && !near {
        flag := false;
      }
      if flag && items[i].free {
        ReserveItem(u, i);
        SendRequestToDb(u, i, net, answered);
      } else {
        players := players[u := players[u].(wait := Pick)];
        Respond(u, answered);
      }
    }

    /**
      db_player_pick_item_callback. `lost` records a look-up that fails, after which
      the source uses the end iterator.
     */
    method PickItemCallback(u: Uid, ret: nat, answered: bool)
      requires u in players
      modifies this
      ensures State() == Callback(old(State()), u, ret, answered)
    {
      if ret == DB_TIMEOUT {
        Respond(u, answered);
        return;
      }
      var i := players[u].picking;
      if i !in items || items[i].btl != players[u].btl || items[i].place != players[u].place {
        lost := true;
        return;
      }
      var owned := items[i].owned;
      if ret != 0 {
        items := items[i := items[i].(free := true)];
        Respond(u, answered);
      } else {
        items := items - {i};
        erased := erased + [i];
        Respond(u, answered || !owned);
      }
      players := players[u := players[u].(picking := 0)];
    }

    /** handle_db_return, for a reply to a request under way. */
    method HandleDbReturn(uid: Uid, grp: nat, ret: nat, body: Body, answered: bool, ghost k: nat)
      requires k in reqs && reqs[k].uid == uid && reqs[k].grp == grp
      modifies this
      ensures State() == Step(old(State()), Reply(k, ret, body, answered))
      ensures Inv(old(State())) ==> Inv(State())
    {
      if Inv(State()) {
        StepKeepsInvIff(State(), Reply(k, ret, body, answered));
      }
      reqs := reqs - {k};
      if grp == 0 || uid !in players || players[uid].btl != grp {
        return;
      }
      if body == Bad || (body == Empty && ret == 0) {
        return;
      }
      PickItemCallback(uid, ret, answered);
    }
  }
}
