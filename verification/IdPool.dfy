/**
  The battle id free list: ids are taken from the front and given back at the
  end (gf/battle_svr/battle_manager.hpp).
 */
module IdPool {
  import opened Sequences

  /** Number of battle ids: the constructor pushes 1, ..., 65533. */
  const IDS := 0xfffd

  /** The free list; `issued` and `returned` are history: every id ever handed out and given back, in order. */
  datatype Pool = Pool(free: seq<nat>, issued: seq<nat>, returned: seq<nat>)

  /** The pool of a server with `n` battle ids. */
  function Fresh(n: nat): Pool { Pool(UpTo(n), [], []) }

  function Take(p: Pool): Pool {
    if p.free == [] then p else Pool(p.free[1..], p.issued + [p.free[0]], p.returned)
  }

  function Give(p: Pool, id: nat): Pool { Pool(p.free + [id], p.issued, p.returned + [id]) }

  class BattleIdList {
    var ids: seq<nat>
    ghost var issued: seq<nat>
    ghost var returned: seq<nat>

    ghost function State(): Pool
      reads this
    {
      Pool(ids, issued, returned)
    }

    constructor ()
      ensures State() == Fresh(IDS)
    {
      ids, issued, returned := [], [], [];
      new;
      for i := 1 to 0x000fffe
        invariant State() == Fresh(i - 1)
      {
        ids := ids + [i];
      }
    }

    /** The front id, or 0 when every id is in use. */
    method ProduceBattleId() returns (id: nat)
      modifies this
      ensures State() == Take(old(State()))
      ensures id == if old(ids) == [] then 0 else old(ids)[0]
    {
      if ids == [] {
        return 0;
      }
      id := ids[0];
      ids := ids[1..];
      issued := issued + [id];
    }

    method ReleaseBattleId(id: nat)
      modifies this
      ensures State() == Give(old(State()), id)
    {
      ids := ids + [id];
      returned := returned + [id];
    }
  }

  /**
    First in, first out: the ids handed out followed by those still free are
    the initial ids followed by those given back.
   */
  ghost predicate Fifo(p: Pool, n: nat) { p.issued + p.free == UpTo(n) + p.returned }

  lemma TakeIsFifo(p: Pool, n: nat)
    requires Fifo(p, n)
    ensures Fifo(Take(p), n)
  {
    if p.free != [] {
      assert p.issued + p.free == (p.issued + [p.free[0]]) + p.free[1..];
    }
  }

  lemma GiveIsFifo(p: Pool, id: nat, n: nat)
    requires Fifo(p, n)
    ensures Fifo(Give(p, id), n)
  {
    assert p.issued + (p.free + [id]) == (p.issued + p.free) + [id];
  }

  /** `q` is a later state of the pool `p`: both histories only grew. */
  ghost predicate Later(p: Pool, q: Pool) { p.issued <= q.issued && p.returned <= q.returned }

  /** Battles created between two states of the pool. */
  function Created(p: Pool, q: Pool): nat
    requires Later(p, q)
  {
    |q.issued| - |p.issued|
  }

  /** The id at place `k` of the free list is exactly what creation k + 1 from now gets. */
  lemma IssuedInFreeOrder(p: Pool, q: Pool, k: nat, n: nat)
    requires Fifo(p, n) && Fifo(q, n) && Later(p, q) && k < |p.free|
    ensures k < Created(p, q) ==> q.issued[|p.issued| + k] == p.free[k]
    ensures k >= Created(p, q) ==> k - Created(p, q) < |q.free| && q.free[k - Created(p, q)] == p.free[k]
  {
    var a, b := UpTo(n) + p.returned, UpTo(n) + q.returned;
    assert p.free[k] == (p.issued + p.free)[|p.issued| + k] == a[|p.issued| + k];
    assert a <= b;
    assert b[|p.issued| + k] == (q.issued + q.free)[|p.issued| + k];
  }

  /**
    Reuse distance: an id given back while F other ids are free is handed out
    to none of the next F battles, and exactly to battle F + 1, whatever else
    is given back in between.
   */
  lemma ReuseDistance(p: Pool, id: nat, q: Pool, n: nat)
    requires id !in p.free && Fifo(p, n) && Fifo(q, n) && Later(Give(p, id), q)
    ensures var f, created := |p.free|, Created(Give(p, id), q);
            && (forall i :: |p.issued| <= i < |q.issued| && i < |p.issued| + f ==> q.issued[i] != id)
            && (created > f ==> q.issued[|p.issued| + f] == id)
            && (created <= f ==> f - created < |q.free| && q.free[f - created] == id)
  {
    var given := Give(p, id);
    GiveIsFifo(p, id, n);
    forall i | |p.issued| <= i < |q.issued| && i < |p.issued| + |p.free|
      ensures q.issued[i] != id
    {
      IssuedInFreeOrder(given, q, i - |p.issued|, n);
      assert given.free[i - |p.issued|] in p.free;
    }
    IssuedInFreeOrder(given, q, |p.free|, n);
    assert given.free[|p.free|] == id;
  }
}
