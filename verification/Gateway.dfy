/**
  The command queue as the server runs it. What a handler does is given to
  Dispatch; the ledger of fates is history.
 */
module Gateway {
  import opened AwaitingList
  import opened CommandQueue

  class Server {
    var players: map<Uid, Player>
    var births: nat
    ghost var arrivals: nat
    ghost var fates: map<nat, Fate>
    ghost var owner: map<nat, Uid>
    ghost var handled: seq<nat>
    ghost var crashed: bool

    ghost function State(): World
      reads this
    {
      World(players, fates, owner, handled, arrivals, births, crashed)
    }

    constructor ()
      ensures State() == INIT && Inv(State())
    {
      InitSatisfiesInv();
      players, births := map[], 0;
      arrivals, fates, owner, handled, crashed := 0, map[], map[], [], false;
    }

    method DelPlayers(gone: set<Uid>)
      modifies this
      ensures State() == Delete(old(State()), gone)
    {
      players := players - gone;
      fates := fates + (map s | s in owner && owner[s] in gone :: Dropped);
      owner := map s | s in owner && owner[s] !in gone :: owner[s];
    }

    method Handle(u: Uid, pkg: Pkg, h: Handler) returns (err: bool)
      requires u in players
      modifies this
      ensures (State(), err) == Execute(old(State()), u, pkg, h)
    {
      if !pkg.fits {
        fates := fates[pkg.serial := Rejected];
        return true;
      }
      fates := fates[pkg.serial := Handled];
      handled := handled + [pkg.serial];
      players := players[u := players[u].(wait := pkg.cmd)];
      players := players[u := players[u].(wait := if h.pending then pkg.cmd else 0, btl := h.btl)];
      assert players == old(players)[u := old(players[u]).(wait := if h.pending then pkg.cmd else 0, btl := h.btl)];
      DelPlayers(h.gone);
      return h.err;
    }

    method CacheAPkg(u: Uid, pkg: Pkg)
      requires u in players
      modifies this
      ensures State() == Cache(old(State()), u, pkg)
    {
      var p := players[u];
      p := p.(queue := p.queue + [pkg]);
      if !p.linked {
        p := p.(linked := true);
      }
      players := players[u := p];
      owner := owner[pkg.serial := u];
    }

    method DispatchPkg(u: Uid, fd: int, pkg: Pkg, first: bool, h: Handler) returns (err: bool)
      modifies this
      ensures (State(), err) == Dispatch(old(State()), u, fd, pkg, first, h)
    {
      if pkg.cmd < CMD_START || pkg.cmd >= CMD_END || !pkg.handled {
        fates := fates[pkg.serial := Rejected];
        return true;
      }
      if pkg.Starts() {
        DelPlayers({u});
        players := players[u := Player(births, fd, 0, 0, [], false, false, [])];
        births := births + 1;
      } else if u !in players || (players[u].btl != 0 && players[u].btl != pkg.grp) {
        fates := fates[pkg.serial := Refused];
        return false;
      }
      if first && players[u].wait != 0 {
        if |players[u].queue| < QUEUE_MAX {
          CacheAPkg(u, pkg);
        } else {
          fates := fates[pkg.serial := RefusedBusy];
        }
        return false;
      }
      err := Handle(u, pkg, h);
    }

    /** A command that was in flight is answered from elsewhere. */
    method Complete(u: Uid)
      modifies this`players
      ensures State() == Step(old(State()), Completed(u))
    {
      if u in players {
        players := players[u := players[u].(wait := 0)];
      }
    }

    /** g_queue_pop_head */
    method PopPkg(u: Uid) returns (pkg: Pkg)
      requires u in players && players[u].queue != []
      modifies this
      ensures pkg == old(players[u].queue[0]) && State() == Pop(old(State()), u)
    {
      var p := players[u];
      pkg := p.queue[0];
      players := players[u := p.(queue := p.queue[1..], drained := p.drained + [pkg], failed := false)];
      owner := owner - {pkg.serial};
    }

    /** One turn of the inner loop of proc_cached_pkgs: the head of the queue is dispatched. */
    method ProcPkg(u: Uid, h: Handler) returns (err: bool)
      requires u in players && players[u].queue != []
      modifies this
      ensures (State(), err) == Turn(old(State()), u, h)
    {
      var fd := players[u].fd;
      var pkg := PopPkg(u);
      err := DispatchPkg(u, fd, pkg, false, h);
    }

    /**
      The inner loop of proc_cached_pkgs for a linked player. `missing` reports
      the pop from an empty queue, where the source goes on with a null package.
     */
    method DrainPlayer(u: Uid, hs: seq<Handler>) returns (missing: bool)
      requires Inv(State()) && u in players && players[u].linked && |hs| >= |players[u].queue|
      modifies this
      ensures State() == Drain(old(State()), u, hs) && Inv(State())
      ensures missing <==> FindsNothing(old(State()), u)
    {
      DrainKeepsInv(State(), u, hs);
      missing := players[u].wait == 0 && players[u].queue == [];
      if missing {
        crashed := true;
      } else {
        DrainQueue(u, hs);
      }
    }

    method DrainQueue(u: Uid, hs: seq<Handler>)
      requires Inv(State()) && u in players && players[u].linked && |hs| >= |players[u].queue|
      requires players[u].wait == 0 ==> players[u].queue != []
      modifies this
      ensures State() == Drain(old(State()), u, hs)
    {
      ghost var w := State();
      var i := 0;
      while players[u].wait == 0
        invariant u in players && Inv(State()) && players[u].linked && (players[u].wait == 0 ==> players[u].queue != [])
        invariant i <= |hs| && |hs| - i >= |players[u].queue|
        invariant Drain(State(), u, hs[i..]) == Drain(w, u, hs)
        decreases |players[u].queue|
      {
        OneTurn(State(), u, hs[i]);
        var err := ProcPkg(u, hs[i]);
        assert hs[i..][0] == hs[i] && hs[i..][1..] == hs[i + 1..];
        if u !in players {
          return;
        }
        if err {
          players := players[u := players[u].(failed := true)];
          return;
        }
        if players[u].queue == [] {
          players := players[u := players[u].(linked := false)];
          return;
        }
        i := i + 1;
      }
    }

    /**
      proc_cached_pkgs over the players awaiting a drain, with the next position
      saved before the current player is drained; stops and reports a position
      whose player is gone and a package that is not there.
     */
    method ProcCachedPkgs(awaiting: seq<Uid>, hss: seq<seq<Handler>>) returns (ending: Ending)
      requires Inv(State()) && Listed(State(), awaiting) && |hss| >= |awaiting|
      requires forall i :: 0 <= i < |hss| ==> |hss[i]| >= QUEUE_MAX
      modifies this
      ensures Scanned(State(), ending) == Scan(old(State()), awaiting, hss) && Inv(State())
    {
      ghost var w := State();
      var list, i := awaiting, 0;
      assert hss[0..] == hss;
      while list != []
        invariant i <= |hss| && |hss| - i >= |list|
        invariant Inv(State()) && Listed(State(), list)
        invariant Scan(State(), list, hss[i..]) == Scan(w, awaiting, hss)
        decreases |list|
      {
        assert hss[i..][0] == hss[i] && hss[i..][1..] == hss[i + 1..];
        assert list[0] in list && QueueOk(players[list[0]], arrivals);
        RestIsListed(State(), list, hss[i]);
        var missing := DrainPlayer(list[0], hss[i]);
        if missing {
          return Missing;
        }
        if |list| > 1 && list[1] !in players {
          return Dangling;
        }
        list := Alive(players, list[1..]);
        i := i + 1;
      }
      return Finished;
    }
  }
}
