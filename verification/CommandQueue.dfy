/**
  One command in flight per player: dispatch runs a package at once, queues it
  or turns it away, and proc_cached_pkgs drains the queues
  (gf/battle_svr/cli_proto.cpp). What a handler does is a parameter.
 */
module CommandQueue {
  import opened Sequences

  type Uid = nat

  const CMD_START := 10001
  const CMD_END := 13000
  const FIGHT_MODE_END := 10050
  const PLAYER_BTL_RESTART := 10023
  const QUEUE_MAX := 50

  /**
    A package: its place in the order of arrival, its command, the battle id it
    carries, whether the command has a handler, and whether its length is right.
   */
  datatype Pkg = Pkg(serial: nat, cmd: nat, grp: nat, handled: bool, fits: bool)
  {
    predicate Known() { CMD_START <= cmd < CMD_END && handled }

    /** is_valid_fight_cmd, restart excepted: the package starts a battle and replaces the player. */
    predicate Starts() { CMD_START <= cmd <= FIGHT_MODE_END && cmd != PLAYER_BTL_RESTART }
  }

  /** What became of a package. */
  datatype Fate = Handled | RefusedBusy | Refused | Rejected | Dropped

  /**
    `born` tells incarnations apart; `drained` lists the packages taken from the
    queue so far; `failed`: the last of them ended in an error.
   */
  datatype Player = Player(born: nat, fd: int, wait: nat, btl: nat, queue: seq<Pkg>,
                           linked: bool, failed: bool, drained: seq<Pkg>)

  /**
    `fates` is the ledger of settled packages, `owner` says in whose queue each
    other one waits, and `handled` lists every call of a handler by its package.
   */
  datatype World = World(players: map<Uid, Player>, fates: map<nat, Fate>, owner: map<nat, Uid>, handled: seq<nat>,
                         arrivals: nat, births: nat, crashed: bool)

  /**
    A handler's effect: is the command still in flight after it, the player's battle,
    the players it deleted, its result.
   */
  datatype Handler = Handler(pending: bool, btl: nat, gone: set<Uid>, err: bool)

  const INIT := World(map[], map[], map[], [], 0, 0, false)

  // ---- Dispatch --------------------------------------------------------

  /** Deleting players frees the packages in their queues. */
  function Delete(w: World, gone: set<Uid>): World {
    w.(players := w.players - gone,
       fates := w.fates + (map s | s in w.owner && w.owner[s] in gone :: Dropped),
       owner := map s | s in w.owner && w.owner[s] !in gone :: w.owner[s])
  }

  function Settle(w: World, serial: nat, fate: Fate): World { w.(fates := w.fates[serial := fate]) }

  /** A handler is called on the package. */
  function Call(w: World, serial: nat): World { Settle(w, serial, Handled).(handled := w.handled + [serial]) }

  function Put(w: World, u: Uid, p: Player): World { w.(players := w.players[u := p]) }

  function Seat(w: World, u: Uid, fd: int): World {
    w.(players := w.players[u := Player(w.births, fd, 0, 0, [], false, false, [])], births := w.births + 1)
  }

  function AddPlayer(w: World, u: Uid, fd: int): World { Seat(Delete(w, {u}), u, fd) }

  /** The length check and the handler; the Boolean is an error return. */
  function Execute(w: World, u: Uid, pkg: Pkg, h: Handler): (World, bool)
    requires u in w.players
  {
    if !pkg.fits then (Settle(w, pkg.serial, Rejected), true)
    else
      var t := Call(w, pkg.serial);
      (Delete(Put(t, u, t.players[u].(wait := if h.pending then pkg.cmd else 0, btl := h.btl)), h.gone), h.err)
  }

  function Cache(w: World, u: Uid, pkg: Pkg): World
    requires u in w.players
  {
    var t := Put(w, u, w.players[u].(queue := w.players[u].queue + [pkg], linked := true));
    t.(owner := t.owner[pkg.serial := u])
  }

  function Dispatch(w: World, u: Uid, fd: int, pkg: Pkg, first: bool, h: Handler): (World, bool) {
    if !pkg.Known() then (Settle(w, pkg.serial, Rejected), true)
    else if pkg.Starts() then Execute(AddPlayer(w, u, fd), u, pkg, h)
    else if u !in w.players || (w.players[u].btl != 0 && w.players[u].btl != pkg.grp) then
      (Settle(w, pkg.serial, Refused), false)
    else if first && w.players[u].wait != 0 then
      if |w.players[u].queue| < QUEUE_MAX then (Cache(w, u, pkg), false)
      else (Settle(w, pkg.serial, RefusedBusy), false)
    else Execute(w, u, pkg, h)
  }

  function Stamped(pkg: Pkg, n: nat): Pkg { pkg.(serial := n) }

  function Received(w: World): World { w.(arrivals := w.arrivals + 1) }

  /** A package arrives from the network. */
  function Arrive(w: World, u: Uid, fd: int, pkg: Pkg, h: Handler): World {
    Dispatch(Received(w), u, fd, Stamped(pkg, w.arrivals), true, h).0
  }

  // ---- Draining --------------------------------------------------------

  /** Takes the first package off the queue. */
  function Pop(w: World, u: Uid): World
    requires u in w.players && w.players[u].queue != []
  {
    var p := w.players[u];
    Put(w, u, p.(queue := p.queue[1..], drained := p.drained + [p.queue[0]], failed := false))
      .(owner := w.owner - {p.queue[0].serial})
  }

  /** One turn of the inner loop of proc_cached_pkgs: the head of the queue is dispatched. */
  function Turn(w: World, u: Uid, h: Handler): (World, bool)
    requires u in w.players && w.players[u].queue != []
  {
    Dispatch(Pop(w, u), u, w.players[u].fd, w.players[u].queue[0], false, h)
  }

  /** That loop for one linked player; one handler outcome per package. */
  function Drain(w: World, u: Uid, hs: seq<Handler>): World
    decreases |hs|
  {
    if u !in w.players || w.players[u].wait != 0 then w
    else if w.players[u].queue == [] then w.(crashed := true)
    else if hs == [] then w
    else
      var (t, err) := Turn(w, u, hs[0]);
      if u !in t.players then t
      else if err then Put(t, u, t.players[u].(failed := true))
      else if t.players[u].queue == [] then Put(t, u, t.players[u].(linked := false))
      else Drain(t, u, hs[1..])
  }

  datatype Event =
    | Package(u: Uid, fd: int, pkg: Pkg, h: Handler)
    | Completed(u: Uid)
    | Drained(u: Uid, hs: seq<Handler>)
    | Deleted(gone: set<Uid>)

  function Step(w: World, e: Event): World {
    match e
    case Package(u, fd, pkg, h) => Arrive(w, u, fd, pkg, h)
    case Completed(u) => if u in w.players then Put(w, u, w.players[u].(wait := 0)) else w
    case Drained(u, hs) => if u in w.players && w.players[u].linked then Drain(w, u, hs) else w
    case Deleted(gone) => Delete(w, gone)
  }

  function Run(w: World, es: seq<Event>): World
    decreases |es|
  {
    if es == [] then w else Run(Step(w, es[0]), es[1..])
  }

  // ---- The invariant ---------------------------------------------------

  ghost predicate Ascending(q: seq<Pkg>) { forall i, j :: 0 <= i < j < |q| ==> q[i].serial < q[j].serial }

  predicate Waits(q: seq<Pkg>, s: nat) { exists i :: 0 <= i < |q| && q[i].serial == s }

  /** Every package that arrived, but for those in `m`, is settled or waits in exactly one queue. */
  ghost predicate LedgerOk(w: World, m: set<nat>) {
    && (forall s :: s in w.fates || s in w.owner <==> 0 <= s < w.arrivals && s !in m)
    && (forall s :: s in w.owner ==> s !in w.fates)
    && (forall s :: s in w.owner ==> w.owner[s] in w.players && Waits(w.players[w.owner[s]].queue, s))
    && (forall u, s :: u in w.players && Waits(w.players[u].queue, s) ==> s in w.owner && w.owner[s] == u)
  }

  /** No package's handler is called twice, and the ledger knows which ones were called. */
  ghost predicate CallsOk(w: World) {
    Distinct(w.handled) && forall s :: s in w.handled <==> s in w.fates && w.fates[s] == Handled
  }

  /** At most 50 packages, none of which starts a battle, in the order of arrival behind those drained before. */
  ghost predicate QueueOk(p: Player, arrivals: nat) {
    && |p.queue| <= QUEUE_MAX && Ascending(p.drained + p.queue) && (p.queue != [] ==> p.linked)
    && (forall i :: 0 <= i < |p.queue| ==> p.queue[i].Known() && !p.queue[i].Starts())
    && (forall i :: 0 <= i < |p.drained| ==> p.drained[i].serial < arrivals)
  }

  /** Only an error in a drain leaves a player linked with nothing queued. */
  predicate LinkOk(p: Player) { p.linked && p.queue == [] ==> p.failed }

  /** The invariant while the packages `m` are in hand and the players `busy` are being drained. */
  ghost predicate InvBut(w: World, m: set<nat>, busy: set<Uid>) {
    && LedgerOk(w, m) && CallsOk(w)
    && (forall u :: u in w.players ==> QueueOk(w.players[u], w.arrivals))
    && (forall u :: u in w.players && u !in busy ==> LinkOk(w.players[u]))
    && (forall u :: u in w.players ==> w.players[u].born < w.births)
  }

  ghost predicate Inv(w: World) { InvBut(w, {}, {}) }

  /** Settled is settled. */
  ghost predicate FatesKept(w: World, t: World) {
    forall s :: s in w.fates ==> s in t.fates && t.fates[s] == w.fates[s]
  }

  // ---- Dispatch keeps the invariant ------------------------------------

  lemma DeleteKeepsLedger(w: World, gone: set<Uid>, m: set<nat>)
    requires LedgerOk(w, m)
    ensures LedgerOk(Delete(w, gone), m)
  {
    DeleteMovesPackages(w, gone, Delete(w, gone));
  }

  /** A package settled or waiting still is one of both. */
  lemma DeleteMovesPackages(w: World, gone: set<Uid>, t: World)
    requires t == Delete(w, gone) && forall s :: s in w.owner ==> s !in w.fates
    ensures forall s :: s in t.fates || s in t.owner <==> s in w.fates || s in w.owner
    ensures forall s :: s in t.owner ==>
          s in w.owner && t.owner[s] == w.owner[s] && w.owner[s] !in gone && s !in t.fates
    ensures FatesKept(w, t)
  {
  }

  lemma DeleteCallsNobody(w: World, gone: set<Uid>, m: set<nat>)
    requires LedgerOk(w, m) && CallsOk(w)
    ensures CallsOk(Delete(w, gone))
  {
  }

  lemma DeleteKeepsInv(w: World, gone: set<Uid>, m: set<nat>, busy: set<Uid>)
    requires InvBut(w, m, busy)
    ensures InvBut(Delete(w, gone), m, busy) && FatesKept(w, Delete(w, gone))
  {
    DeleteKeepsLedger(w, gone, m);
    DeleteMovesPackages(w, gone, Delete(w, gone));
    DeleteCallsNobody(w, gone, m);
  }

  lemma SettleKeepsInv(w: World, s: nat, fate: Fate, busy: set<Uid>)
    requires InvBut(w, {s}, busy) && s < w.arrivals && fate != Handled
    ensures InvBut(Settle(w, s, fate), {}, busy) && FatesKept(w, Settle(w, s, fate))
  {
  }

  lemma CallKeepsInv(w: World, s: nat, busy: set<Uid>)
    requires InvBut(w, {s}, busy) && s < w.arrivals
    ensures InvBut(Call(w, s), {}, busy) && FatesKept(w, Call(w, s))
  {
    AppendDistinct(w.handled, s);
  }

  /** Changing anything about a player but its queue. */
  lemma PutKeepsInv(w: World, u: Uid, p: Player, m: set<nat>, busy: set<Uid>)
    requires InvBut(w, m, busy) && u in w.players && p.born == w.players[u].born && p.queue == w.players[u].queue
    requires p.drained == w.players[u].drained && (p.queue != [] ==> p.linked) && (u !in busy ==> LinkOk(p))
    ensures InvBut(Put(w, u, p), m, busy)
  {
  }

  lemma SeatKeepsLedger(w: World, u: Uid, p: Player, m: set<nat>)
    requires LedgerOk(w, m) && u !in w.players && p.queue == []
    ensures LedgerOk(Put(w, u, p), m)
  {
    assert forall s :: !Waits(p.queue, s);
  }

  lemma SeatKeepsInv(w: World, u: Uid, fd: int, m: set<nat>, busy: set<Uid>)
    requires InvBut(w, m, busy) && u !in w.players
    ensures InvBut(Seat(w, u, fd), m, busy)
  {
    var t := Seat(w, u, fd);
    SeatKeepsLedger(w, u, t.players[u], m);
    assert LedgerOk(t, m) by {
      assert Put(w, u, t.players[u]).players == t.players;
    }
  }

  lemma AddPlayerKeepsInv(w: World, u: Uid, fd: int, m: set<nat>, busy: set<Uid>)
    requires InvBut(w, m, busy)
    ensures InvBut(AddPlayer(w, u, fd), m, busy) && FatesKept(w, AddPlayer(w, u, fd))
  {
    DeleteKeepsInv(w, {u}, m, busy);
    SeatKeepsInv(Delete(w, {u}), u, fd, m, busy);
  }

  lemma ExecuteKeepsInv(w: World, u: Uid, pkg: Pkg, h: Handler, busy: set<Uid>)
    requires InvBut(w, {pkg.serial}, busy) && pkg.serial < w.arrivals && u in w.players
    ensures InvBut(Execute(w, u, pkg, h).0, {}, busy) && FatesKept(w, Execute(w, u, pkg, h).0)
  {
    if !pkg.fits {
      SettleKeepsInv(w, pkg.serial, Rejected, busy);
    } else {
      CallKeepsInv(w, pkg.serial, busy);
      var t := Call(w, pkg.serial);
      var p := t.players[u].(wait := if h.pending then pkg.cmd else 0, btl := h.btl);
      PutKeepsInv(t, u, p, {}, busy);
      DeleteKeepsInv(Put(t, u, p), h.gone, {}, busy);
    }
  }

  /** Every branch of dispatch that does not queue the package settles it. */
  lemma DispatchKeepsInv(w: World, u: Uid, fd: int, pkg: Pkg, first: bool, h: Handler, busy: set<Uid>)
    requires InvBut(w, {pkg.serial}, busy) && pkg.serial < w.arrivals
    requires first && u in w.players && w.players[u].wait != 0 && |w.players[u].queue| < QUEUE_MAX ==> pkg.Starts()
    ensures var t := Dispatch(w, u, fd, pkg, first, h).0;
            InvBut(t, {}, busy) && FatesKept(w, t) && pkg.serial in t.fates
  {
    if !pkg.Known() {
      SettleKeepsInv(w, pkg.serial, Rejected, busy);
    } else if pkg.Starts() {
      AddPlayerKeepsInv(w, u, fd, {pkg.serial}, busy);
      ExecuteKeepsInv(AddPlayer(w, u, fd), u, pkg, h, busy);
    } else if u !in w.players || (w.players[u].btl != 0 && w.players[u].btl != pkg.grp) {
      SettleKeepsInv(w, pkg.serial, Refused, busy);
    } else if first && w.players[u].wait != 0 {
      SettleKeepsInv(w, pkg.serial, RefusedBusy, busy);
    } else {
      ExecuteKeepsInv(w, u, pkg, h, busy);
    }
  }

  lemma WaitsAppend(q: seq<Pkg>, pkg: Pkg, s: nat)
    ensures Waits(q + [pkg], s) <==> Waits(q, s) || s == pkg.serial
  {
    if Waits(q, s) {
      var i :| 0 <= i < |q| && q[i].serial == s;
      assert (q + [pkg])[i].serial == s;
    }
    assert (q + [pkg])[|q|] == pkg;
  }

  /** The newest package goes to the end of the queue. */
  lemma AppendKeepsQueue(p: Player, pkg: Pkg, arrivals: nat)
    requires QueueOk(p, arrivals) && |p.queue| < QUEUE_MAX && pkg.Known() && !pkg.Starts() && pkg.serial == arrivals
    requires forall i :: 0 <= i < |p.queue| ==> p.queue[i].serial < arrivals
    ensures QueueOk(p.(queue := p.queue + [pkg], linked := true), arrivals + 1)
  {
    assert p.drained + (p.queue + [pkg]) == (p.drained + p.queue) + [pkg];
    forall i | 0 <= i < |p.drained + p.queue|
      ensures (p.drained + p.queue)[i].serial < arrivals
    {
    }
  }

  lemma QueuedAreOlder(w: World, u: Uid, m: set<nat>)
    requires LedgerOk(w, m) && u in w.players
    ensures forall i :: 0 <= i < |w.players[u].queue| ==> w.players[u].queue[i].serial < w.arrivals
  {
    forall i | 0 <= i < |w.players[u].queue|
      ensures w.players[u].queue[i].serial < w.arrivals
    {
      var s := w.players[u].queue[i].serial;
      assert Waits(w.players[u].queue, s);
      assert s in w.owner;
    }
  }

  lemma CacheKeepsLedger(w: World, u: Uid, pkg: Pkg)
    requires LedgerOk(w, {pkg.serial}) && u in w.players && pkg.serial < w.arrivals
    ensures LedgerOk(Cache(w, u, pkg), {})
  {
    var t := Cache(w, u, pkg);
    forall s: nat
      ensures Waits(t.players[u].queue, s) <==> Waits(w.players[u].queue, s) || s == pkg.serial
    {
      WaitsAppend(w.players[u].queue, pkg, s);
    }
  }

  /** One more arrival, still in hand. */
  lemma ArrivalInHand(w: World)
    requires Inv(w)
    ensures InvBut(Received(w), {w.arrivals}, {})
  {
  }

  /** Is this arrival put into the queue? */
  predicate Caches(w: World, u: Uid, pkg: Pkg) {
    && pkg.Known() && !pkg.Starts() && u in w.players && (w.players[u].btl == 0 || w.players[u].btl == pkg.grp)
    && w.players[u].wait != 0 && |w.players[u].queue| < QUEUE_MAX
  }

  lemma CacheInHand(w: World, u: Uid, pkg: Pkg)
    requires InvBut(w, {pkg.serial}, {}) && u in w.players && pkg.serial < w.arrivals
    requires QueueOk(w.players[u].(queue := w.players[u].queue + [pkg], linked := true), w.arrivals)
    ensures Inv(Cache(w, u, pkg))
  {
    CacheKeepsLedger(w, u, pkg);
  }

  lemma CacheKeepsInv(w: World, u: Uid, pkg: Pkg)
    requires Inv(w) && Caches(w, u, pkg) && pkg.serial == w.arrivals
    ensures Inv(Cache(Received(w), u, pkg))
  {
    QueuedAreOlder(w, u, {});
    AppendKeepsQueue(w.players[u], pkg, w.arrivals);
    ArrivalInHand(w);
    CacheInHand(Received(w), u, pkg);
  }

  lemma ArriveIsCache(w: World, u: Uid, fd: int, pkg: Pkg, h: Handler)
    requires Caches(w, u, pkg)
    ensures Dispatch(w, u, fd, pkg, true, h).0 == Cache(w, u, pkg)
  {
  }

  lemma NewPackageKeepsInv(w: World, u: Uid, fd: int, pkg: Pkg, h: Handler)
    requires Inv(w) && pkg.serial == w.arrivals
    ensures var t := Dispatch(Received(w), u, fd, pkg, true, h).0; Inv(t) && FatesKept(w, t)
  {
    var v := Received(w);
    if Caches(w, u, pkg) {
      CacheKeepsInv(w, u, pkg);
      ArriveIsCache(v, u, fd, pkg, h);
    } else {
      ArrivalInHand(w);
      ArriveSettles(v, u, fd, pkg, h);
    }
  }

  lemma ArriveKeepsInv(w: World, u: Uid, fd: int, pkg: Pkg, h: Handler)
    requires Inv(w)
    ensures Inv(Arrive(w, u, fd, pkg, h)) && FatesKept(w, Arrive(w, u, fd, pkg, h))
  {
    NewPackageKeepsInv(w, u, fd, Stamped(pkg, w.arrivals), h);
  }

  lemma ArriveSettles(w: World, u: Uid, fd: int, pkg: Pkg, h: Handler)
    requires InvBut(w, {pkg.serial}, {}) && pkg.serial < w.arrivals
    requires !Caches(w, u, pkg)
    ensures var t := Dispatch(w, u, fd, pkg, true, h).0; Inv(t) && FatesKept(w, t) && pkg.serial in t.fates
  {
    if !pkg.Known() || (!pkg.Starts() && (u !in w.players || (w.players[u].btl != 0 && w.players[u].btl != pkg.grp))) {
      SettleKeepsInv(w, pkg.serial, if pkg.Known() then Refused else Rejected, {});
    } else {
      DispatchKeepsInv(w, u, fd, pkg, true, h, {});
    }
  }

  // ---- Draining keeps the invariant ------------------------------------

  lemma WaitsHead(q: seq<Pkg>, s: nat)
    requires q != [] && Ascending(q)
    ensures Waits(q[1..], s) <==> Waits(q, s) && s != q[0].serial
  {
    if Waits(q, s) && s != q[0].serial {
      var i :| 0 <= i < |q| && q[i].serial == s;
      assert q[1..][i - 1].serial == s;
    }
    if Waits(q[1..], s) {
      var i :| 0 <= i < |q[1..]| && q[1..][i].serial == s;
      assert q[i + 1].serial == s;
    }
  }

  /** The head moves from the queue to the drained packages, so their order does not change. */
  lemma PopKeepsQueue(p: Player, arrivals: nat)
    requires QueueOk(p, arrivals) && p.queue != [] && p.queue[0].serial < arrivals
    ensures QueueOk(p.(queue := p.queue[1..], drained := p.drained + [p.queue[0]], failed := false), arrivals)
            && Ascending(p.queue)
  {
    assert (p.drained + [p.queue[0]]) + p.queue[1..] == p.drained + p.queue;
    forall i, j | 0 <= i < j < |p.queue|
      ensures p.queue[i].serial < p.queue[j].serial
    {
      assert (p.drained + p.queue)[|p.drained| + i] == p.queue[i]
          && (p.drained + p.queue)[|p.drained| + j] == p.queue[j];
    }
  }

  lemma PopKeepsLedger(w: World, u: Uid)
    requires LedgerOk(w, {}) && u in w.players && w.players[u].queue != [] && Ascending(w.players[u].queue)
    ensures LedgerOk(Pop(w, u), {w.players[u].queue[0].serial})
  {
    var q, t := w.players[u].queue, Pop(w, u);
    assert Waits(q, q[0].serial);
    forall s: nat
      ensures Waits(t.players[u].queue, s) <==> Waits(q, s) && s != q[0].serial
    {
      WaitsHead(q, s);
    }
  }

  lemma PopKeepsInv(w: World, u: Uid)
    requires Inv(w) && u in w.players && w.players[u].queue != []
    ensures InvBut(Pop(w, u), {w.players[u].queue[0].serial}, {u}) && w.players[u].queue[0].serial < w.arrivals
  {
    QueuedAreOlder(w, u, {});
    PopKeepsQueue(w.players[u], w.arrivals);
    PopKeepsLedger(w, u);
  }

  /** `q` is `p` after some packages went from the front of its queue to its drained ones. */
  ghost predicate DrainedFrom(p: Player, q: Player) {
    q.born == p.born && p.drained <= q.drained && q.drained + q.queue == p.drained + p.queue
  }

  lemma DrainedFromPop(p: Player)
    requires p.queue != []
    ensures DrainedFrom(p, p.(queue := p.queue[1..], drained := p.drained + [p.queue[0]], failed := false))
  {
    assert (p.drained + [p.queue[0]]) + p.queue[1..] == p.drained + p.queue;
  }

  lemma DrainedFromTransitive(p: Player, q: Player, r: Player)
    requires DrainedFrom(p, q) && DrainedFrom(q, r)
    ensures DrainedFrom(p, r)
  {
  }

  /**
    No queued package replaces the player it belongs to, or touches anybody but
    that player and those its handler deletes.
   */
  lemma DrainedPlayerStays(w: World, u: Uid, fd: int, pkg: Pkg, h: Handler)
    requires u in w.players && !pkg.Starts()
    ensures var t := Dispatch(w, u, fd, pkg, false, h).0;
            && (u in t.players ==>
                  var p, q := w.players[u], t.players[u];
                  && q.born == p.born && q.queue == p.queue && q.drained == p.drained
                  && q.linked == p.linked && q.failed == p.failed)
            && (forall v :: v in t.players && v != u ==> v in w.players && t.players[v] == w.players[v])
            && (forall v :: v in w.players && v != u ==> (v in t.players <==> v !in Deletes(w, u, pkg, h)))
            && t.crashed == w.crashed
  {
  }

  /** The players that dispatching a queued package deletes: its handler's, if the handler is called. */
  function Deletes(w: World, u: Uid, pkg: Pkg, h: Handler): set<Uid>
    requires u in w.players
  {
    if pkg.Known() && pkg.fits && (w.players[u].btl == 0 || w.players[u].btl == pkg.grp) then h.gone else {}
  }

  /** After one package: an error, an empty queue or more to drain. */
  lemma AfterOnePackage(t: World, u: Uid)
    requires InvBut(t, {}, {u}) && (u in t.players ==> t.players[u].linked)
    ensures u !in t.players ==> Inv(t)
    ensures u in t.players ==> Inv(Put(t, u, t.players[u].(failed := true)))
    ensures u in t.players && t.players[u].queue == [] ==> Inv(Put(t, u, t.players[u].(linked := false)))
    ensures u in t.players && t.players[u].queue != [] ==> Inv(t)
  {
    if u in t.players {
      PutKeepsInv(t, u, t.players[u].(failed := true), {}, {u});
      if t.players[u].queue == [] {
        PutKeepsInv(t, u, t.players[u].(linked := false), {}, {u});
      }
    }
  }

  /** The players deleted by one turn. */
  function TurnDeletes(w: World, u: Uid, h: Handler): set<Uid>
    requires u in w.players && w.players[u].queue != []
  {
    Deletes(w, u, w.players[u].queue[0], h)
  }

  /** Everything the proofs about draining need to know about one turn of the loop. */
  lemma OneTurn(w: World, u: Uid, h: Handler)
    requires Inv(w) && u in w.players && w.players[u].linked && w.players[u].queue != []
    ensures var t := Turn(w, u, h).0;
            && FatesKept(w, t) && t.crashed == w.crashed
            && (u !in t.players ==> Inv(t))
            && (u in t.players ==>
                  && DrainedFrom(w.players[u], t.players[u]) && |t.players[u].queue| < |w.players[u].queue|
                  && t.players[u].linked && !t.players[u].failed
                  && Inv(Put(t, u, t.players[u].(failed := true)))
                  && (t.players[u].queue == [] ==> Inv(Put(t, u, t.players[u].(linked := false))))
                  && (t.players[u].queue != [] ==> Inv(t)))
  {
    var p, v := w.players[u], Pop(w, u);
    PopKeepsInv(w, u);
    DrainedFromPop(p);
    DispatchKeepsInv(v, u, p.fd, p.queue[0], false, h, {u});
    DrainedPlayerStays(v, u, p.fd, p.queue[0], h);
    AfterOnePackage(Turn(w, u, h).0, u);
  }

  /** What one turn does to anybody else. */
  lemma TurnLeavesOthersAlone(w: World, u: Uid, h: Handler)
    requires Inv(w) && u in w.players && w.players[u].queue != []
    ensures var t := Turn(w, u, h).0;
            && (forall v :: v in t.players && v != u ==> v in w.players && t.players[v] == w.players[v])
            && (forall v :: v in w.players && v != u ==> (v in t.players <==> v !in TurnDeletes(w, u, h)))
  {
    assert QueueOk(w.players[u], w.arrivals);
    DrainedPlayerStays(Pop(w, u), u, w.players[u].fd, w.players[u].queue[0], h);
  }

  lemma {:induction false} DrainKeepsInv(w: World, u: Uid, hs: seq<Handler>)
    requires Inv(w) && u in w.players && w.players[u].linked
    ensures var t := Drain(w, u, hs); Inv(t) && FatesKept(w, t)
    decreases |hs|
  {
    if w.players[u].wait == 0 && hs != [] && w.players[u].queue != [] {
      OneTurn(w, u, hs[0]);
      var (t, err) := Turn(w, u, hs[0]);
      if u in t.players && !err && t.players[u].queue != [] {
        DrainKeepsInv(t, u, hs[1..]);
      }
    }
  }

  // ---- Theorems --------------------------------------------------------

  lemma StepKeepsInv(w: World, e: Event)
    requires Inv(w)
    ensures Inv(Step(w, e)) && FatesKept(w, Step(w, e))
  {
    match e
    case Package(u, fd, pkg, h) => ArriveKeepsInv(w, u, fd, pkg, h);
    case Completed(u) => if u in w.players { PutKeepsInv(w, u, w.players[u].(wait := 0), {}, {}); }
    case Drained(u, hs) => if u in w.players && w.players[u].linked { DrainKeepsInv(w, u, hs); }
    case Deleted(gone) => DeleteKeepsInv(w, gone, {}, {});
  }

  /**
    Whole runs: every package that arrived is settled once and for all or waits
    in exactly one queue, never both; a handler was called on exactly the
    handled ones, and on none of them twice; queues hold at most 50 packages,
    none of them starting a battle, in the order of their arrival.
   */
  lemma {:induction false} RunKeepsTheLedger(w: World, es: seq<Event>)
    requires Inv(w)
    ensures var t := Run(w, es);
            && Inv(t) && FatesKept(w, t) && Distinct(t.handled)
            && (forall s :: s in t.handled <==> s in t.fates && t.fates[s] == Handled)
            && (forall s :: 0 <= s < t.arrivals ==> (s in t.fates <==> s !in t.owner))
            && (forall u :: u in t.players ==> |t.players[u].queue| <= QUEUE_MAX)
    decreases |es|
  {
    if es != [] {
      StepKeepsInv(w, es[0]);
      RunKeepsTheLedger(Step(w, es[0]), es[1..]);
    }
  }

  lemma InitSatisfiesInv()
    ensures Inv(INIT)
  {
  }

  /**
    A drain takes packages from the front of the queue, in the order of their
    arrival, and hands them to the same incarnation of the player, which it
    never replaces; it queues nothing.
   */
  lemma {:induction false} DrainIsInOrder(w: World, u: Uid, hs: seq<Handler>)
    requires Inv(w) && u in w.players && w.players[u].linked
    ensures u in Drain(w, u, hs).players ==> DrainedFrom(w.players[u], Drain(w, u, hs).players[u])
    ensures Ascending(w.players[u].drained + w.players[u].queue)
    decreases |hs|
  {
    assert QueueOk(w.players[u], w.arrivals);
    if w.players[u].wait == 0 && hs != [] && w.players[u].queue != [] {
      OneTurn(w, u, hs[0]);
      var (t, err) := Turn(w, u, hs[0]);
      if u in t.players && !err && t.players[u].queue != [] {
        DrainIsInOrder(t, u, hs[1..]);
        if u in Drain(t, u, hs[1..]).players {
          DrainedFromTransitive(w.players[u], t.players[u], Drain(t, u, hs[1..]).players[u]);
        }
      }
    }
  }

  /** Busy with a command, failed, or drained and off the list. */
  predicate Served(p: Player) { p.wait != 0 || p.failed || (p.queue == [] && !p.linked) }

  /**
    Given an outcome for every queued package, a drain ends in one of four ways:
    the player is gone, a command is in flight again, a package failed, or the
    queue is empty and the player unlinked.
   */
  lemma {:induction false} DrainGoesAsFarAsItCan(w: World, u: Uid, hs: seq<Handler>)
    requires Inv(w) && u in w.players && w.players[u].linked && w.players[u].queue != [] && |hs| >= |w.players[u].queue|
    ensures var t := Drain(w, u, hs);
            u in t.players ==> Served(t.players[u])
    decreases |hs|
  {
    if w.players[u].wait == 0 {
      OneTurn(w, u, hs[0]);
      var (t, err) := Turn(w, u, hs[0]);
      if u in t.players && !err && t.players[u].queue != [] {
        DrainGoesAsFarAsItCan(t, u, hs[1..]);
      }
    }
  }

  // ---- The missing package ---------------------------------------------

  /** Does a drain of `u` find the player idle, linked and with nothing queued? */
  predicate FindsNothing(w: World, u: Uid) {
    u in w.players && w.players[u].linked && w.players[u].wait == 0 && w.players[u].queue == []
  }

  /**
    A drain dereferences a missing package exactly if it starts on a player it finds
    idle, linked and with nothing queued.
   */
  lemma {:induction false} DrainCrashesIff(w: World, u: Uid, hs: seq<Handler>)
    requires Inv(w) && u in w.players && w.players[u].linked
    ensures Drain(w, u, hs).crashed <==> w.crashed || FindsNothing(w, u)
    ensures FindsNothing(w, u) ==> w.players[u].failed
    decreases |hs|
  {
    if w.players[u].wait == 0 && w.players[u].queue != [] && hs != [] {
      OneTurn(w, u, hs[0]);
      var (t, err) := Turn(w, u, hs[0]);
      if u in t.players && !err && t.players[u].queue != [] {
        DrainCrashesIff(t, u, hs[1..]);
      }
    }
  }

  lemma ArriveCrashesNot(w: World, u: Uid, fd: int, pkg: Pkg, h: Handler)
    ensures Arrive(w, u, fd, pkg, h).crashed == w.crashed
  {
  }

  /** Does some drain of the run find nothing? */
  ghost predicate SomeDrainFindsNothing(w: World, es: seq<Event>)
    decreases |es|
  {
    es != [] && ((es[0].Drained? && FindsNothing(w, es[0].u)) || SomeDrainFindsNothing(Step(w, es[0]), es[1..]))
  }

  /** A run takes a missing package exactly if some drain of it meets an idle, linked player with nothing queued. */
  lemma {:induction false} RunCrashesIff(w: World, es: seq<Event>)
    requires Inv(w)
    ensures Run(w, es).crashed <==> w.crashed || SomeDrainFindsNothing(w, es)
    decreases |es|
  {
    if es != [] {
      var e := es[0];
      StepKeepsInv(w, e);
      if e.Package? {
        ArriveCrashesNot(w, e.u, e.fd, e.pkg, e.h);
      } else if e.Drained? && e.u in w.players && w.players[e.u].linked {
        DrainCrashesIff(w, e.u, e.hs);
      }
      RunCrashesIff(Step(w, e), es[1..]);
    }
  }

  /** Is no player drained again after a drain of it failed, unless it was deleted in between? */
  ghost predicate FailedAreDeletedFirst(w: World, es: seq<Event>)
    decreases |es|
  {
    es == [] || ((es[0].Drained? && es[0].u in w.players ==> !w.players[es[0].u].failed)
                 && FailedAreDeletedFirst(Step(w, es[0]), es[1..]))
  }

  /** If every player whose drain failed is deleted before its next drain, no run takes a missing package. */
  lemma {:induction false} DeletingTheFailedIsEnough(w: World, es: seq<Event>)
    requires Inv(w) && FailedAreDeletedFirst(w, es)
    ensures !SomeDrainFindsNothing(w, es)
    decreases |es|
  {
    if es != [] {
      var e := es[0];
      StepKeepsInv(w, e);
      if e.Drained? && e.u in w.players && w.players[e.u].linked {
        DrainCrashesIff(w, e.u, e.hs);
      }
      DeletingTheFailedIsEnough(Step(w, e), es[1..]);
    }
  }

  lemma Busy() returns (e: Event)
    ensures Step(INIT, e).players == map[1 := Player(0, 5, 10002, 0, [], false, false, [])]
    ensures Step(INIT, e).arrivals == 1 && !Step(INIT, e).crashed
  {
    e := Package(1, 5, Pkg(0, 10002, 0, true, true), Handler(true, 0, {}, false));
  }

  lemma Queued(w: World) returns (e: Event, q: Pkg)
    requires w.players == map[1 := Player(0, 5, 10002, 0, [], false, false, [])]
    ensures q.Known() && !q.Starts() && !q.fits
    ensures Step(w, e).players == map[1 := Player(0, 5, 10002, 0, [q], true, false, [])]
  {
    var p := Pkg(0, 10052, 0, true, false);
    q := Stamped(p, w.arrivals);
    e := Package(1, 5, p, Handler(false, 0, {}, false));
    assert Step(w, e) == Cache(Received(w), 1, q);
    assert [] + [q] == [q];
    assert Step(w, e).players == w.players[1 := Player(0, 5, 10002, 0, [q], true, false, [])];
  }

  lemma FailedDrain(w: World, q: Pkg)
    requires w.players == map[1 := Player(0, 5, 0, 0, [q], true, false, [])] && q.Known() && !q.Starts() && !q.fits
    ensures FindsNothing(Step(w, Drained(1, [Handler(false, 0, {}, false)])), 1)
  {
    var v := Pop(w, 1);
    assert v.players[1] == Player(0, 5, 0, 0, [], true, false, [q]);
    assert Turn(w, 1, Handler(false, 0, {}, false)) == (Settle(v, q.serial, Rejected), true);
  }

  /**
    It happens: a command stays pending, a package of wrong length queues behind
    it, its drain fails, the next drain finds nothing.
   */
  lemma SomeDrainTakesNothing() returns (es: seq<Event>)
    ensures |es| == 5 && Run(INIT, es).crashed
  {
    var a := Busy();
    var w1 := Step(INIT, a);
    var b, q := Queued(w1);
    var w2 := Step(w1, b);
    var c, d, e := Completed(1), Drained(1, [Handler(false, 0, {}, false)]), Drained(1, []);
    var w3 := Step(w2, c);
    assert w3.players == map[1 := Player(0, 5, 0, 0, [q], true, false, [])];
    FailedDrain(w3, q);
    FindingNothingCrashes(Step(w3, d), 1);
    es := [a, b, c, d, e];
    RunFive(INIT, a, b, c, d, e);
  }

  lemma FindingNothingCrashes(w: World, u: Uid)
    requires FindsNothing(w, u)
    ensures Step(w, Drained(u, [])).crashed
  {
  }

  lemma RunFive(w: World, a: Event, b: Event, c: Event, d: Event, e: Event)
    ensures Run(w, [a, b, c, d, e]) == Step(Step(Step(Step(Step(w, a), b), c), d), e)
  {
    assert [a, b, c, d, e][1..] == [b, c, d, e] && [b, c, d, e][1..] == [c, d, e] && [c, d, e][1..] == [d, e];
    assert [d, e][1..] == [e] && [e][1..] == [];
    var w3 := Step(Step(Step(w, a), b), c);
    assert Run(w3, [d, e]) == Run(Step(w3, d), [e]) == Run(Step(Step(w3, d), e), []);
    assert Run(Step(Step(w, a), b), [c, d, e]) == Run(w3, [d, e]);
    assert Run(Step(w, a), [b, c, d, e]) == Run(Step(Step(w, a), b), [c, d, e]);
  }

  /**
    What arrival decides for a command of a seated player: it runs at once
    exactly if no command is in flight, even ahead of older queued packages;
    otherwise it goes behind them, or is turned away if 50 wait already.
   */
  lemma ArrivalDecides(w: World, u: Uid, fd: int, pkg: Pkg, h: Handler)
    requires Inv(w) && pkg.Known() && !pkg.Starts() && u in w.players
             && (w.players[u].btl == 0 || w.players[u].btl == pkg.grp)
    ensures var t, s, p := Arrive(w, u, fd, pkg, h), w.arrivals, w.players[u];
            && (p.wait == 0 <==> s in t.fates && t.fates[s] == if pkg.fits then Handled else Rejected)
            && (p.wait != 0 && |p.queue| < QUEUE_MAX <==> s in t.owner)
            && (s in t.owner ==> u in t.players && t.players[u].queue == p.queue + [Stamped(pkg, s)])
            && (p.wait != 0 && |p.queue| == QUEUE_MAX <==> s in t.fates && t.fates[s] == RefusedBusy)
  {
    ArriveKeepsInv(w, u, fd, pkg, h);
    assert QueueOk(w.players[u], w.arrivals);
  }
}
