/**
  What becomes of every package, told from the package and the state alone
  (gf/battle_svr/cli_proto.cpp).
 */
module QueueOutcomes {
  import opened CommandQueue
  import opened Sequences

  /** The package names a battle its player does not sit in, or there is no such player. */
  predicate Foreign(w: World, u: Uid, pkg: Pkg) {
    u !in w.players || (w.players[u].btl != 0 && w.players[u].btl != pkg.grp)
  }

  /** `t` is `w` after the players `gone` and the packages in their queues were dropped. */
  ghost predicate Gone(w: World, t: World, gone: set<Uid>) {
    && t.players == w.players - gone
    && (forall s :: s in t.owner <==> s in w.owner && w.owner[s] !in gone)
    && (forall s :: s in t.owner ==> t.owner[s] == w.owner[s])
    && (forall s :: s in t.fates <==> s in w.fates || (s in w.owner && w.owner[s] in gone))
    && (forall s :: s in t.fates && s in w.owner && w.owner[s] in gone ==> t.fates[s] == Dropped)
    && (forall s :: s in w.fates && !(s in w.owner && w.owner[s] in gone) ==> t.fates[s] == w.fates[s])
    && t.handled == w.handled && t.arrivals == w.arrivals && t.births == w.births && t.crashed == w.crashed
  }

  /** `t` is `w` after the package was rejected for its length, or handed to its handler, which may free the slot. */
  ghost predicate Ran(w: World, t: World, u: Uid, pkg: Pkg, h: Handler)
    requires u in w.players
  {
    if !pkg.fits then t == w.(fates := w.fates[pkg.serial := Rejected])
    else
      var p := w.players[u].(wait := if h.pending then pkg.cmd else 0, btl := h.btl);
      var called := w.(fates := w.fates[pkg.serial := Handled], handled := w.handled + [pkg.serial]);
      Gone(called.(players := w.players[u := p]), t, h.gone)
  }

  lemma ExecuteRuns(w: World, u: Uid, pkg: Pkg, h: Handler)
    requires u in w.players
    ensures var (t, err) := Execute(w, u, pkg, h); Ran(w, t, u, pkg, h) && (err <==> !pkg.fits || h.err)
  {
  }

  /** A command that starts a battle: its player ends, and a new one without a battle takes its place. */
  ghost predicate Replaced(w: World, t: World, u: Uid, fd: int) {
    u in t.players && t.players[u] == Player(w.births, fd, 0, 0, [], false, false, []) && t.births == w.births + 1
    && Gone(w, t.(players := t.players - {u}, births := w.births), {u})
  }

  lemma AddPlayerReplaces(w: World, u: Uid, fd: int)
    ensures Replaced(w, AddPlayer(w, u, fd), u, fd)
  {
    var t := AddPlayer(w, u, fd);
    assert t.players - {u} == w.players - {u};
  }

  predicate Known(pkg: Pkg) { 10001 <= pkg.cmd < 13000 && pkg.handled }

  predicate Starts(pkg: Pkg) { 10001 <= pkg.cmd <= 10050 && pkg.cmd != 10023 }

  /** `t` is `w` after the package was run by a new incarnation of its player. */
  ghost predicate RanAnew(w: World, t: World, u: Uid, fd: int, pkg: Pkg, h: Handler) {
    exists d :: Replaced(w, d, u, fd) && Ran(d, t, u, pkg, h)
  }

  lemma StartRunsAnew(w: World, u: Uid, fd: int, pkg: Pkg, first: bool, h: Handler)
    requires Known(pkg) && Starts(pkg)
    ensures RanAnew(w, Dispatch(w, u, fd, pkg, first, h).0, u, fd, pkg, h)
  {
    var d := AddPlayer(w, u, fd);
    AddPlayerReplaces(w, u, fd);
    ExecuteRuns(d, u, pkg, h);
    assert Dispatch(w, u, fd, pkg, first, h) == Execute(d, u, pkg, h);
  }

  /**
    What becomes of an arriving package: unknown commands are rejected; one that
    starts a battle replaces its player and runs; one for a foreign battle is
    refused; and any other runs at once if no command is in flight, waits as the
    last of at most fifty, or is turned away.
   */
  ghost predicate Decided(w: World, t: World, u: Uid, fd: int, pkg: Pkg, h: Handler) {
    if !Known(pkg) then t == w.(fates := w.fates[pkg.serial := Rejected])
    else if Starts(pkg) then RanAnew(w, t, u, fd, pkg, h)
    else if Foreign(w, u, pkg) then t == w.(fates := w.fates[pkg.serial := Refused])
    else if w.players[u].wait == 0 then Ran(w, t, u, pkg, h)
    else if |w.players[u].queue| < 50 then
      var p := w.players[u];
      t == w.(players := w.players[u := p.(queue := p.queue + [pkg], linked := true)],
              owner := w.owner[pkg.serial := u])
    else t == w.(fates := w.fates[pkg.serial := RefusedBusy])
  }

  lemma DispatchDecides(w: World, u: Uid, fd: int, pkg: Pkg, h: Handler)
    ensures Decided(w, Dispatch(w, u, fd, pkg, true, h).0, u, fd, pkg, h)
  {
    if Known(pkg) {
      if Starts(pkg) {
        StartRunsAnew(w, u, fd, pkg, true, h);
      } else if !Foreign(w, u, pkg) && w.players[u].wait == 0 {
        ExecuteRuns(w, u, pkg, h);
      }
    }
  }

  /** So it is with the package that arrives next, whose place in the order of arrival is its serial number. */
  lemma ArriveDecides(w: World, u: Uid, fd: int, pkg: Pkg, h: Handler)
    ensures Decided(w.(arrivals := w.arrivals + 1), Arrive(w, u, fd, pkg, h), u, fd, Stamped(pkg, w.arrivals), h)
  {
    DispatchDecides(Received(w), u, fd, Stamped(pkg, w.arrivals), h);
  }

  /** The world in which the head of the queue is in hand. */
  function InHand(w: World, u: Uid): World
    requires u in w.players && w.players[u].queue != []
  {
    var p := w.players[u];
    w.(players := w.players[u := p.(queue := p.queue[1..], drained := p.drained + [p.queue[0]], failed := false)],
       owner := w.owner - {p.queue[0].serial})
  }

  /** What becomes of a package that a drain takes: refused if its player sits elsewhere by now, and run otherwise. */
  lemma TurnDecides(w: World, u: Uid, h: Handler)
    requires Inv(w) && u in w.players && w.players[u].queue != []
    ensures var (t, err) := Turn(w, u, h);
            var v, q := InHand(w, u), w.players[u].queue[0];
            if Foreign(w, u, q) then t == v.(fates := w.fates[q.serial := Refused]) && !err
            else Ran(v, t, u, q, h) && (err <==> !q.fits || h.err)
  {
    assert QueueOk(w.players[u], w.arrivals);
    ExecuteRuns(InHand(w, u), u, w.players[u].queue[0], h);
  }

  /** Did the package fail, given what became of it and its handler's outcome? */
  predicate Bad(fates: map<nat, Fate>, s: nat, h: Handler) {
    s in fates && (fates[s] == Rejected || (fates[s] == Handled && h.err))
  }

  lemma TurnFails(w: World, u: Uid, h: Handler)
    requires Inv(w) && u in w.players && w.players[u].queue != []
    ensures var (t, err) := Turn(w, u, h);
            var s := w.players[u].queue[0].serial;
            s in t.fates && (err <==> Bad(t.fates, s, h))
            && (u in t.players ==> t.players[u].queue == w.players[u].queue[1..]
                                   && t.players[u].drained == w.players[u].drained + [w.players[u].queue[0]])
  {
    var p, v := w.players[u], Pop(w, u);
    PopKeepsInv(w, u);
    TurnDecides(w, u, h);
    assert QueueOk(p, w.arrivals);
    DrainedPlayerStays(v, u, p.fd, p.queue[0], h);
  }

  /** May a drain of `u` take a package, and is there a handler outcome for each one? */
  ghost predicate Drains(w: World, u: Uid, hs: seq<Handler>) {
    Inv(w) && u in w.players && w.players[u].linked && w.players[u].wait == 0 && 0 < |w.players[u].queue| <= |hs|
  }

  /** How many packages the drain takes of a player who is there in the end. */
  ghost function Taken(w: World, u: Uid, hs: seq<Handler>): int
    requires u in w.players && u in Drain(w, u, hs).players
  {
    |Drain(w, u, hs).players[u].drained| - |w.players[u].drained|
  }

  lemma DrainTakesOne(w: World, u: Uid, hs: seq<Handler>)
    requires Drains(w, u, hs) && u in Drain(w, u, hs).players
    ensures 1 <= Taken(w, u, hs) <= |w.players[u].queue|
  {
    OneTurn(w, u, hs[0]);
    TurnFails(w, u, hs[0]);
    DrainIsInOrder(w, u, hs);
    var (t, err) := Turn(w, u, hs[0]);
    if u in t.players && !err && t.players[u].queue != [] {
      DrainIsInOrder(t, u, hs[1..]);
    }
  }

  lemma DrainGoesOn(w: World, u: Uid, hs: seq<Handler>)
    requires Drains(w, u, hs) && u in Drain(w, u, hs).players && Taken(w, u, hs) > 1
    ensures var (t, err) := Turn(w, u, hs[0]);
            && !err && u in t.players && Drains(t, u, hs[1..]) && Drain(w, u, hs) == Drain(t, u, hs[1..])
            && t.players[u].queue == w.players[u].queue[1..] && Taken(t, u, hs[1..]) == Taken(w, u, hs) - 1
  {
    OneTurn(w, u, hs[0]);
    TurnFails(w, u, hs[0]);
  }

  lemma FirstPackageFails(w: World, u: Uid, hs: seq<Handler>)
    requires Drains(w, u, hs) && u in Drain(w, u, hs).players
    ensures var t := Drain(w, u, hs);
            Bad(t.fates, w.players[u].queue[0].serial, hs[0]) <==> Taken(w, u, hs) == 1 && t.players[u].failed
  {
    OneTurn(w, u, hs[0]);
    TurnFails(w, u, hs[0]);
    var (t, err) := Turn(w, u, hs[0]);
    if !err && t.players[u].queue != [] {
      DrainKeepsInv(t, u, hs[1..]);
      if t.players[u].wait == 0 {
        DrainTakesOne(t, u, hs[1..]);
      }
    }
  }

  /**
    A drain stops at the first package that fails: all it took before were fine,
    and the player is marked failed exactly if the last one was not.
   */
  lemma {:induction false} DrainStopsAtTheFirstError(w: World, u: Uid, hs: seq<Handler>, j: nat)
    requires Drains(w, u, hs) && u in Drain(w, u, hs).players && j < Taken(w, u, hs)
    ensures Taken(w, u, hs) <= |w.players[u].queue|
    ensures var t := Drain(w, u, hs);
            Bad(t.fates, w.players[u].queue[j].serial, hs[j]) <==> j == Taken(w, u, hs) - 1 && t.players[u].failed
    decreases |hs|
  {
    DrainTakesOne(w, u, hs);
    if j == 0 {
      FirstPackageFails(w, u, hs);
    } else {
      DrainGoesOn(w, u, hs);
      DrainStopsAtTheFirstError(Turn(w, u, hs[0]).0, u, hs[1..], j - 1);
    }
  }

  /** A command answered from elsewhere frees the slot and changes nothing else; deletions drop exactly their queues. */
  lemma CompletionAndDeletionDecide(w: World, u: Uid, gone: set<Uid>)
    ensures Step(w, Completed(u))
            == if u in w.players then w.(players := w.players[u := w.players[u].(wait := 0)]) else w
    ensures Gone(w, Step(w, Deleted(gone)), gone)
  {
  }
}
