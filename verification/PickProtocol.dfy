/**
  Picking up an item: the item is reserved on its map, the database is asked,
  and the reply erases the item, releases it or leaves it reserved
  (gf/battle_svr/player.cpp, dbproxy.cpp, cli_proto.cpp). Players share maps,
  come, leave and come back while requests are under way.
 */
module PickProtocol {
  import opened IdPool
  import opened Sequences

  type Uid = nat

  /** waitcmd: no command in flight, a pick in flight, or any other command in flight. */
  datatype Wait = Idle | Pick | Other

  /** `born` tells two incarnations of the same user id apart; `picking` is cur_item_picking, 0 for none. */
  datatype Player = Player(born: nat, wait: Wait, btl: nat, place: nat, picking: nat)

  datatype Battle = Battle(team: bool, started: bool) {
    predicate Joinable() { team && !started }
  }

  /** A drop: where it lies, whether it has an owner, and its state (`free` is can_pick). */
  datatype Item = Item(btl: nat, place: nat, owned: bool, free: bool)

  /** A request under way. The database sees `uid` and `grp` only; `born` and `item` are history. */
  datatype Req = Req(uid: Uid, grp: nat, born: nat, item: nat)

  /**
    `next` stamps players, items and requests; `erased` lists the items taken off
    their maps for a player so far; `lost` is set when a reply found no item under its player's
    cur_item_picking, where the source dereferences an end iterator.
   */
  datatype World = World(players: map<Uid, Player>, pool: Pool, battles: map<nat, Battle>, items: map<nat, Item>,
                         reqs: map<nat, Req>, next: nat, erased: seq<nat>, lost: bool)

  function Init(n: nat): World { World(map[], Fresh(n), map[], map[], map[], 1, [], false) }

  /** Length of a reply's body: as declared, empty, or anything else. */
  datatype Body = Exact | Empty | Bad

  /** What became of a request: under way, lost in the socket, or refused because the proxy is down. */
  datatype Net = Sent | Dropped | ProxyDown

  const DB_TIMEOUT := 1017

  datatype Event =
    | Create(u: Uid, team: bool)
    | Join(u: Uid, b: nat, full: bool)
    | Restart(u: Uid)
    | Leave(u: Uid)
    | StartBattle(b: nat)
    | Drop(b: nat, m: nat, owned: bool)
    | Command(u: Uid, grp: nat)
    | Done(u: Uid)
    | EnterMap(u: Uid, grp: nat, m: nat)
    | PickUp(u: Uid, grp: nat, item: nat, near: bool, net: Net, answered: bool)
    | Reply(req: nat, ret: nat, body: Body, answered: bool)

  // ---- Coming and going ------------------------------------------------

  function Destroy(w: World, b: nat): World {
    w.(pool := Give(w.pool, b), battles := w.battles - {b},
       items := map i | i in w.items && w.items[i].btl != b :: w.items[i])
  }

  predicate Alone(w: World, u: Uid, b: nat) { forall v :: v in w.players && v != u ==> w.players[v].btl != b }

  /** del_player: the battle goes with its last player, and its drops go with the battle. */
  function End(w: World, u: Uid): World {
    if u !in w.players then w
    else
      var b := w.players[u].btl;
      var t := w.(players := w.players - {u});
      if b in w.battles && Alone(w, u, b) then Destroy(t, b) else t
  }

  /** A battle-starting command: the previous incarnation ends, the new one waits for its answer. */
  function Seat(w: World, u: Uid): World {
    var t := End(w, u);
    t.(players := t.players[u := Player(t.next, Other, 0, 0, 0)], next := t.next + 1)
  }

  /** A battle of its own for `u`, under the front id. */
  function Open(w: World, u: Uid, team: bool): World
    requires u in w.players
  {
    if w.pool.free == [] then w
    else
      var b := w.pool.free[0];
      w.(pool := Take(w.pool), battles := w.battles[b := Battle(team, false)],
         players := w.players[u := w.players[u].(btl := b, place := 0, picking := 0, wait := Other)])
  }

  function DoJoin(w: World, u: Uid, b: nat, full: bool): World {
    var t := Seat(w, u);
    if b !in t.battles || !t.battles[b].Joinable() then End(t, u)
    else if full then t
    else t.(players := t.players[u := t.players[u].(btl := b)])
  }

  /** May a command of `u` that carries battle id `grp` run now? Otherwise it is queued or refused. */
  predicate Runs(w: World, u: Uid, grp: nat) {
    u in w.players && w.players[u].wait == Idle && w.players[u].btl in w.battles && w.players[u].btl == grp
  }

  predicate MayRestart(w: World, u: Uid) {
    u in w.players && w.players[u].wait == Idle && w.players[u].btl in w.battles && !w.battles[w.players[u].btl].team
  }

  function Unseat(w: World, u: Uid): World
    requires u in w.players
  {
    var t := Destroy(w, w.players[u].btl);
    t.(players := t.players[u := t.players[u].(btl := 0, place := 0, picking := 0)])
  }

  function DoRestart(w: World, u: Uid): World { if MayRestart(w, u) then Open(Unseat(w, u), u, false) else w }

  // ---- Picking ---------------------------------------------------------

  function SetWait(w: World, u: Uid, wait: Wait): World
    requires u in w.players
  {
    w.(players := w.players[u := w.players[u].(wait := wait)])
  }

  predicate OnMap(w: World, p: Player, i: nat) {
    i in w.items && w.items[i].btl == p.btl && w.items[i].place == p.place
  }

  function Reserve(w: World, u: Uid, i: nat): World
    requires u in w.players && i in w.items
  {
    w.(players := w.players[u := w.players[u].(wait := Pick, picking := i)],
       items := w.items[i := w.items[i].(free := false)])
  }

  function DoPick(w: World, u: Uid, i: nat, near: bool, net: Net, answered: bool): World
    requires u in w.players
  {
    var p := w.players[u];
    if !OnMap(w, p, i) || !near || !w.items[i].free then SetWait(w, u, if answered then Idle else Pick)
    else
      var t := Reserve(w, u, i);
      match net
      case Sent => t.(reqs := t.reqs[t.next := Req(u, p.btl, p.born, i)], next := t.next + 1)
      case Dropped => t
      case ProxyDown => SetWait(t, u, if answered then Idle else Pick)
  }

  predicate Malformed(ret: nat, body: Body) { body == Bad || (body == Empty && ret == 0) }

  /** The item goes back on its map. */
  function Release(w: World, u: Uid, wait: Wait): World
    requires u in w.players && w.players[u].picking in w.items
  {
    var i := w.players[u].picking;
    w.(items := w.items[i := w.items[i].(free := true)],
       players := w.players[u := w.players[u].(picking := 0, wait := wait)])
  }

  /** The item goes off its map for the player who holds it. */
  function TakeOff(w: World, u: Uid, wait: Wait): World
    requires u in w.players
  {
    var i := w.players[u].picking;
    w.(items := w.items - {i}, erased := w.erased + [i],
       players := w.players[u := w.players[u].(picking := 0, wait := wait)])
  }

  /** The callback for the player `u` whose battle id the reply carries. */
  function Callback(w: World, u: Uid, ret: nat, answered: bool): World
    requires u in w.players
  {
    var p := w.players[u];
    if ret == DB_TIMEOUT then if answered then SetWait(w, u, Idle) else w
    else if !OnMap(w, p, p.picking) then w.(lost := true)
    else if ret != 0 then Release(w, u, if answered then Idle else p.wait)
    else TakeOff(w, u, if answered || !w.items[p.picking].owned then Idle else p.wait)
  }

  /** handle_db_return: one reply per request; it reaches whoever has the uid and sits in a battle of that id. */
  function DoReply(w: World, k: nat, ret: nat, body: Body, answered: bool): World {
    if k !in w.reqs then w
    else
      var r := w.reqs[k];
      var t := w.(reqs := w.reqs - {k});
      if r.grp == 0 || r.uid !in t.players || t.players[r.uid].btl != r.grp || Malformed(ret, body) then t
      else Callback(t, r.uid, ret, answered)
  }

  function Step(w: World, e: Event): World {
    match e
    case Create(u, team) => Open(Seat(w, u), u, team)
    case Join(u, b, full) => DoJoin(w, u, b, full)
    case Restart(u) => DoRestart(w, u)
    case Leave(u) => End(w, u)
    case StartBattle(b) => if b in w.battles then w.(battles := w.battles[b := w.battles[b].(started := true)]) else w
    case Drop(b, m, owned) =>
      if b in w.battles && w.battles[b].started
      then w.(items := w.items[w.next := Item(b, m, owned, true)], next := w.next + 1)
      else w
    case Command(u, grp) => if Runs(w, u, grp) then SetWait(w, u, Other) else w
    case Done(u) => if u in w.players && w.players[u].wait == Other then SetWait(w, u, Idle) else w
    case EnterMap(u, grp, m) => if Runs(w, u, grp) then w.(players := w.players[u := w.players[u].(place := m)]) else w
    case PickUp(u, grp, i, near, net, answered) => if Runs(w, u, grp) then DoPick(w, u, i, near, net, answered) else w
    case Reply(k, ret, body, answered) => DoReply(w, k, ret, body, answered)
  }

  function Run(w: World, es: seq<Event>): World
    decreases |es|
  {
    if es == [] then w else Run(Step(w, es[0]), es[1..])
  }

  /**
    The item that the database gives away with this event: a request was
    accepted, or timed out, in which case it may have been.
   */
  function AcceptedBy(w: World, e: Event): seq<nat> {
    if e.Reply? && e.req in w.reqs && (e.ret == 0 || e.ret == DB_TIMEOUT) then [w.reqs[e.req].item] else []
  }

  /** The items the database gave away over a run, whatever the server made of its replies. */
  function Accepted(w: World, es: seq<Event>): seq<nat>
    decreases |es|
  {
    if es == [] then [] else AcceptedBy(w, es[0]) + Accepted(Step(w, es[0]), es[1..])
  }
}
