/**
  What every room command does, told from the packet and the state alone
  (gf/battle_svr/battle.cpp, player.cpp). The two battle indexes follow from the
  rooms by the registry's invariant.
 */
module RoomOutcomes {
  import opened IdPool
  import opened Registry
  import opened Sequences

  /** The player is ended and sat in no battle. */
  ghost predicate Ended(s: State, t: State, u: Uid) {
    t.seats == s.seats - {u} && t.rooms == s.rooms && t.pool == s.pool
  }

  /** The player opens battle `r` under the front id and leads it; with no id left it stays without a battle. */
  ghost predicate Opened(s: State, t: State, u: Uid, fd: int, r: Room) {
    if s.pool.free == [] then t == s
    else
      var b := s.pool.free[0];
      && t.rooms == s.rooms[b := r] && t.pool.free == s.pool.free[1..]
      && t.seats == s.seats[u := Seat(fd, b, true, r.team)]
  }

  /** The player is the last in the list of room `b`, which admits `limit` from now on. */
  ghost predicate Entered(s: State, t: State, u: Uid, fd: int, b: nat, limit: nat) {
    && b in s.rooms && t.pool == s.pool
    && var r := s.rooms[b];
       && t.rooms == s.rooms[b := r.(players := r.players + [u], joins := r.joins + 1, limit := limit)]
       && t.seats == s.seats[u := Seat(fd, b, false, true)]
  }

  // ---- Leaving ---------------------------------------------------------

  /** `rest` is `all` without its one `u`. */
  ghost predicate WithoutOne(all: seq<Uid>, u: Uid, rest: seq<Uid>) {
    exists i :: 0 <= i < |all| && all[i] == u && rest == all[..i] + all[i + 1..]
  }

  lemma {:induction false} EraseAt(all: seq<Uid>, u: Uid) returns (i: nat)
    requires u in all
    ensures i < |all| && all[i] == u && Erase(all, u) == all[..i] + all[i + 1..]
    decreases |all|
  {
    if all[0] == u {
      i := 0;
    } else {
      var j := EraseAt(all[1..], u);
      i := j + 1;
      assert all[..i] == [all[0]] + all[1..][..j] && all[i + 1..] == all[1..][j + 1..];
    }
  }

  /**
    Room `b` goes on without `u`: the others in their order, room for one less, and in
    a PvE room the first of them leads if the leader left.
   */
  ghost predicate WentOn(s: State, t: State, u: Uid, b: nat) {
    && b in s.rooms && b in t.rooms && t.pool == s.pool
    && var r, rest := s.rooms[b], t.rooms[b].players;
       && WithoutOne(r.players, u, rest) && rest != []
       && t.rooms == s.rooms[b := r.(players := rest, limit := if r.limit == 0 then 0 else r.limit - 1)]
       && t.seats.Keys == s.seats.Keys - {u}
       && forall v :: v in t.seats ==>
            v in s.seats && t.seats[v] == if r.mode == Pve && u == r.players[0] && v == rest[0]
                                          then Seat(s.seats[v].fd, b, true, true) else s.seats[v]
  }

  lemma SeatsGoOn(r: Room, seats: map<Uid, Seat>, u: Uid, rest: seq<Uid>)
    requires r.players != [] && u in seats && rest == Erase(r.players, u) != [] && rest[0] in seats && rest[0] != u
    requires r.mode == Pve ==> r.team && Led(r, seats) && u in r.players && rest[0] in r.players
    ensures var t := SeatsWithout(seats, u, r);
            && t.Keys == seats.Keys - {u}
            && forall v :: v in t ==>
                 t[v] == if r.mode == Pve && u == r.players[0] && v == rest[0]
                         then Seat(seats[v].fd, seats[v].btl, true, true) else seats[v]
  {
  }

  lemma OneLeaves(s: State, u: Uid, b: nat)
    requires Inv(s) && u in s.seats && s.seats[u].btl == b && b in s.rooms && Erase(s.rooms[b].players, u) != []
    ensures WentOn(s, DelPlayer(s, u), u, b) && s.rooms[b].players != [u]
  {
    var r := s.rooms[b];
    var rest := Erase(r.players, u);
    var i := EraseAt(r.players, u);
    RestIsSeated(s, u, b, rest);
    SeatsGoOn(r, s.seats, u, rest);
    DelOneKeepsInv(s, u, b);
  }

  lemma RestIsSeated(s: State, u: Uid, b: nat, rest: seq<Uid>)
    requires Inv(s) && u in s.seats && s.seats[u].btl == b && b in s.rooms && rest == Erase(s.rooms[b].players, u) != []
    ensures var r := s.rooms[b];
            && rest[0] in r.players && rest[0] != u && rest[0] in s.seats && s.seats[rest[0]].btl == b
            && (r.mode == Pve ==> r.team && Led(r, s.seats))
  {
    assert RoomOk(s.rooms[b]);
    EraseFromDistinct(s.rooms[b].players, u);
    assert rest[0] in rest;
  }

  lemma LastOneLeaves(s: State, u: Uid, b: nat)
    requires Inv(s) && u in s.seats && s.seats[u].btl == b && b in s.rooms && Erase(s.rooms[b].players, u) == []
    ensures var t := DelPlayer(s, u);
            && s.rooms[b].players == [u] && t.rooms == s.rooms - {b} && t.pool.free == s.pool.free + [b]
            && t.seats == s.seats - {u}
  {
    DelLastKeepsInv(s, u, b);
    var i := EraseAt(s.rooms[b].players, u);
  }

  /**
    A departure: alone in its battle, the player takes it along and its id goes to
    the end of the list; else the room goes on without it.
   */
  lemma LeaveDecides(s: State, u: Uid)
    requires Inv(s)
    ensures var t := Step(s, Leave(u));
            if u !in s.seats then t == s
            else
              var b := s.seats[u].btl;
              if b == 0 then Ended(s, t, u)
              else if s.rooms[b].players == [u] then
                t.rooms == s.rooms - {b} && t.pool.free == s.pool.free + [b] && t.seats == s.seats - {u}
              else WentOn(s, t, u, b)
  {
    if u in s.seats && s.seats[u].btl != 0 {
      var b := s.seats[u].btl;
      if Erase(s.rooms[b].players, u) == [] {
        LastOneLeaves(s, u, b);
      } else {
        OneLeaves(s, u, b);
      }
    }
  }

  /** A battle-starting command: the player leaves as above, and is seated anew without a battle. */
  lemma SeatDecides(s: State, u: Uid, fd: int)
    requires Inv(s)
    ensures var t, d := SeatNew(s, u, fd), Step(s, Leave(u));
            t == d.(seats := d.seats[u := Seat(fd, 0, false, false)]) && u !in d.seats && Fresh(t, u, fd)
  {
    DelKeepsInv(s, u);
    SeatNewKeepsInv(s, u, fd);
  }

  /** `u` has just been seated, on connection `fd`. */
  ghost predicate Fresh(s: State, u: Uid, fd: int) { Arrived(s, u) && s.seats[u] == Seat(fd, 0, false, false) }

  lemma EndOfFresh(s: State, u: Uid, fd: int)
    requires Fresh(s, u, fd)
    ensures Ended(s, DelPlayer(s, u), u)
  {
  }

  lemma TeamBattleIs(s: State, b: nat)
    requires Inv(s)
    ensures 0 !in s.rooms && TeamBattle(s, b) == if b in s.rooms && s.rooms[b].team then b else 0
  {
    assert b in s.rooms ==> b in s.composite;
  }

  // ---- Opening and entering --------------------------------------------

  lemma CreationDecides(s: State, u: Uid, fd: int, at: StageRef, lvOk: bool, limitNum: nat, refuse: nat)
    requires Inv(s)
    ensures var s0, t := SeatNew(s, u, fd), Step(s, Solo(u, fd, at, lvOk));
            if at.NoStage? || !lvOk then t == s0
            else Opened(s0, t, u, fd, Room(Pve, false, at.id, at.diff, [u], 2, true, false, 2, 0))
    ensures var s0, t := SeatNew(s, u, fd), Step(s, CreateTeam(u, fd, at, lvOk, limitNum, refuse));
            if at.NoStage? then Ended(s0, t, u)
            else if !lvOk then t == s0
            else Opened(s0, t, u, fd, Room(Pve, true, at.id, at.diff, [u], limitNum, refuse == 0, false, limitNum, 0))
  {
    SeatDecides(s, u, fd);
    EndOfFresh(SeatNew(s, u, fd), u, fd);
  }

  /** A waiting PvE team room whose first player is the one the caller expects, if it expects one. */
  predicate Joinable(s: State, b: nat, hint: Uid) {
    && b in s.rooms && s.rooms[b].team && s.rooms[b].mode == Pve && !s.rooms[b].started
    && (hint == 0 || (s.rooms[b].players != [] && s.rooms[b].players[0] == hint))
  }

  lemma FreshJoinDecides(s: State, u: Uid, fd: int, room: bv32, hint: Uid, b: nat)
    requires Fresh(s, u, fd) && b == LocalId(room)
    ensures var t := DoJoinTeam(s, u, room, hint);
            if !Joinable(s, b, hint) then Ended(s, t, u)
            else if |s.rooms[b].players| >= s.rooms[b].limit then t == s
            else Entered(s, t, u, fd, b, s.rooms[b].limit)
  {
    TeamBattleIs(s, b);
    EndOfFresh(s, u, fd);
  }

  /** A join of a room that cannot be joined ends the player; a full one leaves it without a battle. */
  lemma JoinDecides(s: State, u: Uid, fd: int, room: bv32, hint: Uid)
    requires Inv(s)
    ensures var s0, t, b := SeatNew(s, u, fd), Step(s, JoinTeam(u, fd, room, hint)), LocalId(room);
            if !Joinable(s0, b, hint) then Ended(s0, t, u)
            else if |s0.rooms[b].players| >= s0.rooms[b].limit then t == s0
            else Entered(s0, t, u, fd, b, s0.rooms[b].limit)
  {
    SeatDecides(s, u, fd);
    FreshJoinDecides(SeatNew(s, u, fd), u, fd, room, hint, LocalId(room));
  }

  /** Has room `b` a vacancy, and does it wait to start? */
  predicate Vacant(s: State, b: nat) {
    b in s.rooms && s.rooms[b].team && |s.rooms[b].players| < s.rooms[b].limit && !s.rooms[b].started
  }

  /** Is room `b` vacant, of this stage and difficulty, and open to hot joins? */
  predicate Admits(s: State, stage: nat, diff: nat, b: nat) {
    Vacant(s, b) && s.rooms[b].stage == stage && s.rooms[b].diff == diff && s.rooms[b].hotJoin
  }

  /** The least id of such a room, or 0 if there is none. */
  ghost predicate FirstAdmitting(s: State, stage: nat, diff: nat, c: nat) {
    if c == 0 then forall b :: b in s.rooms ==> !Admits(s, stage, diff, b)
    else Admits(s, stage, diff, c) && forall b :: b in s.rooms && Admits(s, stage, diff, b) ==> c <= b
  }

  lemma RandomBattleAdmits(s: State, stage: nat, diff: nat)
    requires Inv(s)
    ensures FirstAdmitting(s, stage, diff, RandomBattle(s, stage, diff))
  {
    RandomBattleIsTheFirstOpen(s, stage, diff);
    var bucket := Bucket(s.buckets, (stage, diff));
    forall b | b in s.rooms
      ensures b in bucket <==> s.rooms[b].stage == stage && s.rooms[b].diff == diff
      ensures Admits(s, stage, diff, b) <==> b in bucket && s.rooms[b].Open()
    {
      assert s.rooms[b].Place() in s.buckets && b in s.buckets[s.rooms[b].Place()];
    }
  }

  lemma FreshHotJoinDecides(s: State, u: Uid, fd: int, room: bv32, at: StageRef, b: nat) returns (c: nat)
    requires Fresh(s, u, fd) && b == LocalId(room)
    ensures at.Stage? ==> FirstAdmitting(s, at.id, at.diff, c)
    ensures var t := DoHotJoin(s, u, room, at);
            if at.NoStage? then Ended(s, t, u)
            else if Vacant(s, b) then Entered(s, t, u, fd, b, s.rooms[b].limit)
            else if c != 0 && s.rooms[c].mode == Pve then Entered(s, t, u, fd, c, s.rooms[c].limit)
            else Ended(s, t, u)
  {
    TeamBattleIs(s, b);
    EndOfFresh(s, u, fd);
    c := 0;
    if at.Stage? {
      c := RandomBattle(s, at.id, at.diff);
      RandomBattleAdmits(s, at.id, at.diff);
    }
  }

  /**
    A hot join enters the named room if that is vacant, of whatever mode; else the
    room of least id that is vacant, open to hot joins and of the stage, if that is a
    PvE room; and else it ends the player, even if PvE rooms with greater ids wait.
   */
  lemma HotJoinDecides(s: State, u: Uid, fd: int, room: bv32, at: StageRef) returns (c: nat)
    requires Inv(s)
    ensures at.Stage? ==> FirstAdmitting(SeatNew(s, u, fd), at.id, at.diff, c)
    ensures var s0, t, b := SeatNew(s, u, fd), Step(s, HotJoin(u, fd, room, at)), LocalId(room);
            if at.NoStage? then Ended(s0, t, u)
            else if Vacant(s0, b) then Entered(s0, t, u, fd, b, s0.rooms[b].limit)
            else if c != 0 && s0.rooms[c].mode == Pve then Entered(s0, t, u, fd, c, s0.rooms[c].limit)
            else Ended(s0, t, u)
  {
    SeatDecides(s, u, fd);
    c := FreshHotJoinDecides(SeatNew(s, u, fd), u, fd, room, at, LocalId(room));
  }

  lemma GrowingEntry(s: State, u: Uid, fd: int, b: nat, limit: nat)
    requires Fresh(s, u, fd) && b in s.rooms
    ensures var t := AddMember(s, u, b);
            Entered(s, t.(rooms := t.rooms[b := t.rooms[b].(limit := limit)]), u, fd, b, limit)
  {
  }

  lemma FreshPvpDecides(s: State, u: Uid, fd: int, mode: Mode, room: bv32, invited: bool, at: StageRef,
                        limitNum: nat, grown: nat, b: nat)
    requires Fresh(s, u, fd) && mode != Pve && b == LocalId(room) && at.Stage?
    ensures var t := DoPvp(s, u, mode, room, invited, at, limitNum, grown);
            if b in s.rooms && s.rooms[b].team && s.rooms[b].mode != mode then Ended(s, t, u)
            else if Vacant(s, b) then Entered(s, t, u, fd, b, grown)
            else if invited && b != 0 then Ended(s, t, u)
            else Opened(s, t, u, fd, Room(mode, true, at.id, 1, [u], limitNum, true, false, limitNum, 0))
  {
    TeamBattleIs(s, b);
    EndOfFresh(s, u, fd);
    if b in s.rooms {
      GrowingEntry(s, u, fd, b, grown);
    }
  }

  /**
    A PvP entry: a named team room of another mode ends the player; a vacant one of
    the mode takes it in and grows to the new limit; and otherwise the player opens a
    room of its own, unless it was invited to a certain one.
   */
  lemma PvpDecides(s: State, u: Uid, fd: int, mode: Mode, room: bv32, invited: bool, at: StageRef,
                   limitNum: nat, grown: nat)
    requires Inv(s) && mode != Pve
    ensures var s0, b := SeatNew(s, u, fd), LocalId(room);
            var t := Step(s, Pvp(u, fd, mode, room, invited, at, limitNum, grown));
            if at.NoStage? || (b in s0.rooms && s0.rooms[b].team && s0.rooms[b].mode != mode) then Ended(s0, t, u)
            else if Vacant(s0, b) then Entered(s0, t, u, fd, b, grown)
            else if invited && b != 0 then Ended(s0, t, u)
            else Opened(s0, t, u, fd, Room(mode, true, at.id, 1, [u], limitNum, true, false, limitNum, 0))
  {
    SeatDecides(s, u, fd);
    EndOfFresh(SeatNew(s, u, fd), u, fd);
    if at.Stage? {
      FreshPvpDecides(SeatNew(s, u, fd), u, fd, mode, room, invited, at, limitNum, grown, LocalId(room));
    }
  }

  // ---- In the room -----------------------------------------------------

  /**
    A kick ends the victim wherever it is, if the caller's battle waits to start; a
    start and the hot-join flag change one field of that battle.
   */
  lemma RoomCommandsDecide(s: State, u: Uid, victim: Uid, flag: nat)
    requires Inv(s)
    ensures var waits := u in s.seats && s.seats[u].btl != 0 && !s.rooms[s.seats[u].btl].started;
            && Step(s, Kick(u, victim)) == (if waits then Step(s, Leave(victim)) else s)
            && (!waits ==> Step(s, Start(u)) == s && Step(s, SetHotJoin(u, flag)) == s)
            && (waits ==>
                  var b := s.seats[u].btl;
                  && Step(s, Start(u)) == s.(rooms := s.rooms[b := s.rooms[b].(started := true)])
                  && Step(s, SetHotJoin(u, flag)) == s.(rooms := s.rooms[b := s.rooms[b].(hotJoin := (flag == 0))]))
  {
  }

  /**
    A restart runs only in a solo battle, and if it names a new stage only if there
    is one: the battle ends, its id goes to the end of the list, and the player opens
    a battle on the new or the same stage under the front id.
   */
  lemma RestartDecides(s: State, u: Uid, switches: bool, at: StageRef)
    requires Inv(s)
    ensures var t := Step(s, Restart(u, switches, at));
            var solo := u in s.seats && s.seats[u].btl != 0 && !s.rooms[s.seats[u].btl].team;
            if !solo || (switches && at.NoStage?) then t == s
            else
              var b, p := s.seats[u].btl, s.seats[u];
              var free, to := s.pool.free + [b], if switches then at else Stage(s.rooms[b].stage, s.rooms[b].diff);
              && t.pool.free == free[1..]
              && t.rooms == (s.rooms - {b})[free[0] := Room(Pve, false, to.id, to.diff, [u], 2, true, false, 2, 0)]
              && t.seats == s.seats[u := Seat(p.fd, free[0], true, p.inTeam)]
  {
    assert u in s.seats && s.seats[u].btl != 0 ==> s.seats[u].btl in s.rooms;
  }
}
