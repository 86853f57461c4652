/**
  The battle registry: battle ids, the two battle indexes, who sits in which
  battle, team leaders and room capacity (gf/battle_svr/battle_manager.hpp,
  battle_impl.hpp, battle_impl.cpp, battle.cpp and player.cpp).
 */
module Registry {
  import opened IdPool
  import opened Sequences

  type Uid = nat

  datatype Mode = Pve | LvMatch | TmpTeam

  /**
    One battle. `limit` is players_num_limit; `limit0` and `joins` are history:
    the limit the room was created with and the joins that succeeded so far.
   */
  datatype Room = Room(mode: Mode, team: bool, stage: nat, diff: nat, players: seq<Uid>, limit: nat,
                       hotJoin: bool, started: bool, limit0: nat, joins: nat)
  {
    predicate Full() { |players| >= limit }

    predicate PveTeam() { mode == Pve && team }

    /** The all_battle bucket this battle belongs to. */
    function Place(): (nat, nat) { (stage, diff) }

    /** Would a random hot join pick this room? */
    predicate Open() { !Full() && !started && hotJoin && team }
  }

  /** One player: its connection, its battle (0 for none), its leader flag and its team flag. */
  datatype Seat = Seat(fd: int, btl: nat, leader: bool, inTeam: bool)

  datatype State = State(pool: Pool, rooms: map<nat, Room>, composite: set<nat>,
                         buckets: map<(nat, nat), set<nat>>, seats: map<Uid, Seat>)

  const START := State(Fresh(IDS), map[], {}, map[], map[])

  function Bucket(buckets: map<(nat, nat), set<nat>>, k: (nat, nat)): set<nat> {
    if k in buckets then buckets[k] else {}
  }

  function NewRoom(mode: Mode, team: bool, stage: nat, diff: nat, u: Uid, limit: nat, hotJoin: bool): Room {
    Room(mode, team, stage, diff, [u], limit, hotJoin, false, limit, 0)
  }

  // ---- The elementary changes ------------------------------------------

  /** Battle's constructor. With no id left the source aborts on an assertion; here the state stays. */
  function CreateRoom(s: State, u: Uid, r: Room): State
    requires u in s.seats
  {
    if s.pool.free == [] then s
    else
      var b := s.pool.free[0];
      State(Take(s.pool), s.rooms[b := r], s.composite + {b},
            s.buckets[r.Place() := Bucket(s.buckets, r.Place()) + {b}],
            s.seats[u := s.seats[u].(btl := b, leader := true, inTeam := s.seats[u].inTeam || r.team)])
  }

  /** Battle's destructor. */
  function DestroyRoom(s: State, b: nat): State
    requires b in s.rooms
  {
    var k := s.rooms[b].Place();
    State(Give(s.pool, b), s.rooms - {b},
          if b in Bucket(s.buckets, k) then s.composite - {b} else s.composite,
          s.buckets[k := Bucket(s.buckets, k) - {b}], s.seats)
  }

  function WithoutMember(r: Room, u: Uid): Room {
    r.(players := Erase(r.players, u), limit := if r.limit > 0 then r.limit - 1 else 0)
  }

  /**
    The seats after `u` got up: its seat is gone and, in a PvE team, the first player
    left takes over from a leader.
   */
  function SeatsWithout(seats: map<Uid, Seat>, u: Uid, r: Room): map<Uid, Seat>
    requires u in seats
  {
    var rest := Erase(r.players, u);
    var handed := if seats[u].inTeam && r.mode == Pve && seats[u].leader && rest != [] && rest[0] in seats
                  then seats[rest[0] := seats[rest[0]].(leader := true)] else seats;
    handed - {u}
  }

  /** del_player: the player leaves its battle, and a battle left empty is destroyed. */
  function DelPlayer(s: State, u: Uid): State {
    if u !in s.seats then s
    else
      var b := s.seats[u].btl;
      if b !in s.rooms then s.(seats := s.seats - {u})
      else
        var r := WithoutMember(s.rooms[b], u);
        var t := s.(rooms := s.rooms[b := r], seats := SeatsWithout(s.seats, u, s.rooms[b]));
        if r.players == [] then DestroyRoom(t, b) else t
  }

  /** add_player with enter_room: the player joins a team room. */
  function AddMember(s: State, u: Uid, b: nat): State
    requires u in s.seats && b in s.rooms
  {
    var r := s.rooms[b];
    s.(rooms := s.rooms[b := r.(players := r.players + [u], joins := r.joins + 1)],
       seats := s.seats[u := s.seats[u].(btl := b, inTeam := true)])
  }

  /** What dispatch does for a battle-starting command: a previous incarnation is ended first. */
  function SeatNew(s: State, u: Uid, fd: int): State {
    var t := DelPlayer(s, u);
    t.(seats := t.seats[u := Seat(fd, 0, false, false)])
  }

  // ---- Look-ups --------------------------------------------------------

  /** get_battle for team battles: 0 if there is none. */
  function TeamBattle(s: State, room: nat): nat {
    if room in s.composite && room in s.rooms && s.rooms[room].team then room else 0
  }

  /** global_room_id */
  function GlobalRoomId(id: bv32, server: bv32): bv32 { id | ((server << 16) & 0xffff_0000) }

  /** room_id & 0x0000ffff */
  function LocalId(room: bv32): nat { (room & 0x0000_ffff) as nat }

  /** get_radom_battle: the first open room of the bucket in id order, which is the least. */
  ghost predicate IsRandomBattle(s: State, stage: nat, diff: nat, b: nat) {
    var bucket := Bucket(s.buckets, (stage, diff));
    if b == 0 then forall x :: x in bucket && x in s.rooms ==> !s.rooms[x].Open()
    else b in bucket && b in s.rooms && s.rooms[b].Open()
         && forall x :: x in bucket && x in s.rooms && s.rooms[x].Open() ==> b <= x
  }

  /** The first open room among `from`, ..., IDS of a bucket, or 0. */
  function OpenFrom(s: State, bucket: set<nat>, from: nat): (b: nat)
    requires from >= 1
    ensures b == 0 ==> forall x :: from <= x <= IDS && x in bucket && x in s.rooms ==> !s.rooms[x].Open()
    ensures b != 0 ==> from <= b <= IDS && b in bucket && b in s.rooms && s.rooms[b].Open()
                       && forall x :: from <= x < b && x in bucket && x in s.rooms ==> !s.rooms[x].Open()
    decreases IDS - from
  {
    if from > IDS then 0
    else if from in bucket && from in s.rooms && s.rooms[from].Open() then from
    else OpenFrom(s, bucket, from + 1)
  }

  function RandomBattle(s: State, stage: nat, diff: nat): nat { OpenFrom(s, Bucket(s.buckets, (stage, diff)), 1) }

  // ---- The commands ----------------------------------------------------

  /** A stage of the configuration, if the ids in the package name one. */
  datatype StageRef = NoStage | Stage(id: nat, diff: nat)

  /**
    `Solo`, `CreateTeam`, `JoinTeam`, `HotJoin` and `Pvp` are the battle-starting
    commands; `lvOk` says whether the player's level fits the stage. `Restart`
    carries the stage it switches to, if it switches.
   */
  datatype Cmd =
    | Solo(u: Uid, fd: int, at: StageRef, lvOk: bool)
    | CreateTeam(u: Uid, fd: int, at: StageRef, lvOk: bool, limitNum: nat, refuseHotJoin: nat)
    | JoinTeam(u: Uid, fd: int, room: bv32, teamLeader: Uid)
    | HotJoin(u: Uid, fd: int, room: bv32, at: StageRef)
    | Pvp(u: Uid, fd: int, mode: Mode, room: bv32, invited: bool, at: StageRef, limitNum: nat, grown: nat)
    | Restart(u: Uid, switches: bool, at: StageRef)
    | Kick(u: Uid, victim: Uid)
    | Leave(u: Uid)
    | Start(u: Uid)
    | SetHotJoin(u: Uid, flag: nat)
    | CloseConn(fd: int, order: seq<Uid>)

  function DoSolo(s: State, u: Uid, at: StageRef, lvOk: bool): State
    requires u in s.seats
  {
    if at.NoStage? || !lvOk then s
    else CreateRoom(s, u, NewRoom(Pve, false, at.id, at.diff, u, 2, true))
  }

  function DoCreateTeam(s: State, u: Uid, at: StageRef, lvOk: bool, limitNum: nat, refuseHotJoin: nat): State
    requires u in s.seats
  {
    if at.NoStage? then DelPlayer(s, u)
    else if !lvOk then s
    else CreateRoom(s, u, NewRoom(Pve, true, at.id, at.diff, u, limitNum, refuseHotJoin == 0))
  }

  function DoJoinTeam(s: State, u: Uid, room: bv32, teamLeader: Uid): State
    requires u in s.seats
  {
    var b := TeamBattle(s, LocalId(room));
    if b !in s.rooms || s.rooms[b].started || s.rooms[b].mode != Pve
       || (teamLeader != 0 && (s.rooms[b].players == [] || s.rooms[b].players[0] != teamLeader)) then DelPlayer(s, u)
    else if s.rooms[b].Full() then s
    else AddMember(s, u, b)
  }

  function DoHotJoin(s: State, u: Uid, room: bv32, at: StageRef): State
    requires u in s.seats
  {
    if at.NoStage? then DelPlayer(s, u)
    else
      var b := TeamBattle(s, LocalId(room));
      if b in s.rooms && !s.rooms[b].Full() && !s.rooms[b].started then AddMember(s, u, b)
      else
        var c := RandomBattle(s, at.id, at.diff);
        if c !in s.rooms || s.rooms[c].mode != Pve then DelPlayer(s, u) else AddMember(s, u, c)
  }

  /** The two PvP entries. `grown` is the limit the room has once the second team came in. */
  function DoPvp(s: State, u: Uid, mode: Mode, room: bv32, invited: bool, at: StageRef, limitNum: nat,
                 grown: nat): State
    requires u in s.seats && mode != Pve
  {
    if at.NoStage? then DelPlayer(s, u)
    else
      var b := TeamBattle(s, LocalId(room));
      if b in s.rooms && s.rooms[b].mode != mode then DelPlayer(s, u)
      else if b !in s.rooms || s.rooms[b].Full() || s.rooms[b].started then
        if invited && LocalId(room) != 0 then DelPlayer(s, u)
        else CreateRoom(s, u, NewRoom(mode, true, at.id, 1, u, limitNum, true))
      else
        var t := AddMember(s, u, b);
        t.(rooms := t.rooms[b := t.rooms[b].(limit := grown)])
  }

  function DoRestart(s: State, u: Uid, switches: bool, at: StageRef): State {
    if u !in s.seats || s.seats[u].btl !in s.rooms then s
    else
      var r := s.rooms[s.seats[u].btl];
      if r.team || (switches && at.NoStage?) then s
      else
        var t := DestroyRoom(s, s.seats[u].btl);
        var to := if switches then at else Stage(r.stage, r.diff);
        CreateRoom(t.(seats := t.seats[u := t.seats[u].(btl := 0)]), u, NewRoom(Pve, false, to.id, to.diff, u, 2, true))
  }

  /** May the player `u` act on its room before the battle starts? */
  predicate InWaitingRoom(s: State, u: Uid) {
    u in s.seats && s.seats[u].btl in s.rooms && !s.rooms[s.seats[u].btl].started
  }

  function DoSetRoom(s: State, u: Uid, started: bool, hotJoin: bool): State
    requires InWaitingRoom(s, u)
  {
    var b := s.seats[u].btl;
    s.(rooms := s.rooms[b := s.rooms[b].(started := started, hotJoin := hotJoin)])
  }

  /** The players of `order` that sit on the connection, deleted one after the other; -1 stands for every connection. */
  function ClearAll(s: State, fd: int, order: seq<Uid>): State
    decreases |order|
  {
    if order == [] then s
    else
      var u := order[0];
      ClearAll(if u in s.seats && (s.seats[u].fd == fd || fd == -1) then DelPlayer(s, u) else s, fd, order[1..])
  }

  function Step(s: State, c: Cmd): State {
    match c
    case Solo(u, fd, at, lvOk) => DoSolo(SeatNew(s, u, fd), u, at, lvOk)
    case CreateTeam(u, fd, at, lvOk, limitNum, refuse) => DoCreateTeam(SeatNew(s, u, fd), u, at, lvOk, limitNum, refuse)
    case JoinTeam(u, fd, room, leader) => DoJoinTeam(SeatNew(s, u, fd), u, room, leader)
    case HotJoin(u, fd, room, at) => DoHotJoin(SeatNew(s, u, fd), u, room, at)
    case Pvp(u, fd, mode, room, invited, at, limitNum, grown) =>
      if mode == Pve then s else DoPvp(SeatNew(s, u, fd), u, mode, room, invited, at, limitNum, grown)
    case Restart(u, switches, at) => DoRestart(s, u, switches, at)
    case Kick(u, victim) => if InWaitingRoom(s, u) then DelPlayer(s, victim) else s
    case Leave(u) => DelPlayer(s, u)
    case Start(u) => if InWaitingRoom(s, u) then DoSetRoom(s, u, true, s.rooms[s.seats[u].btl].hotJoin) else s
    case SetHotJoin(u, flag) => if InWaitingRoom(s, u) then DoSetRoom(s, u, false, flag == 0) else s
    case CloseConn(fd, order) => ClearAll(s, fd, order)
  }

  function Run(s: State, cmds: seq<Cmd>): State
    decreases |cmds|
  {
    if cmds == [] then s else Run(Step(s, cmds[0]), cmds[1..])
  }

  // ---- The invariant ---------------------------------------------------

  /** Free and live ids partition 1, ..., 65533, no id is free twice, and the pool is first in, first out. */
  ghost predicate IdsOk(p: Pool, live: set<nat>) {
    && Fifo(p, IDS) && Distinct(p.free)
    && (forall id :: id in p.free || id in live <==> 1 <= id <= IDS)
    && (forall id :: id in live ==> id !in p.free)
  }

  /** composite_battle holds exactly the live battles and the buckets split them by stage and difficulty. */
  ghost predicate IndexOk(rooms: map<nat, Room>, composite: set<nat>, buckets: map<(nat, nat), set<nat>>) {
    && composite == rooms.Keys
    && (forall k, b :: k in buckets && b in buckets[k] ==> b in rooms && rooms[b].Place() == k)
    && (forall b :: b in rooms ==> rooms[b].Place() in buckets && b in buckets[rooms[b].Place()])
  }

  /** A player's battle is b exactly if the player is in b's list. */
  ghost predicate OwnOk(rooms: map<nat, Room>, seats: map<Uid, Seat>) {
    && 0 !in rooms
    && (forall u :: u in seats && seats[u].btl != 0 ==> seats[u].btl in rooms && u in rooms[seats[u].btl].players)
    && (forall b, u :: b in rooms && u in rooms[b].players ==> u in seats && seats[u].btl == b)
  }

  /** Vacancies only ever go to joins: what was free at creation is what joins took plus what is free now. */
  ghost predicate CapacityOk(r: Room) {
    if r.limit0 == 0 then r.limit == 0 && r.joins == 0
    else |r.players| <= r.limit && r.joins + (r.limit - |r.players|) == r.limit0 - 1
  }

  /** Nobody is listed twice, no live battle is empty, and only team battles hold more than one player. */
  ghost predicate RoomOk(r: Room) {
    && r.players != [] && Distinct(r.players)
    && (!r.team ==> |r.players| == 1 && r.mode == Pve)
    && (r.PveTeam() ==> CapacityOk(r))
  }

  ghost predicate RoomsOk(rooms: map<nat, Room>) { forall b :: b in rooms ==> RoomOk(rooms[b]) }

  /** In a PvE team the first player is the leader, and the only one. */
  ghost predicate Led(r: Room, seats: map<Uid, Seat>) {
    && r.players != []
    && forall u :: u in r.players ==> u in seats && seats[u].inTeam && (seats[u].leader <==> u == r.players[0])
  }

  ghost predicate LeadOk(rooms: map<nat, Room>, seats: map<Uid, Seat>) {
    forall b :: b in rooms && rooms[b].PveTeam() ==> Led(rooms[b], seats)
  }

  ghost predicate Inv(s: State) {
    && IdsOk(s.pool, s.rooms.Keys) && IndexOk(s.rooms, s.composite, s.buckets)
    && OwnOk(s.rooms, s.seats) && RoomsOk(s.rooms) && LeadOk(s.rooms, s.seats)
  }

  // ---- The elementary changes keep the invariant -----------------------

  lemma TakeKeepsIds(p: Pool, live: set<nat>)
    requires IdsOk(p, live) && p.free != []
    ensures p.free[0] != 0 && p.free[0] !in live && IdsOk(Take(p), live + {p.free[0]})
  {
    TakeIsFifo(p, IDS);
    var id := p.free[0];
    assert p.free == [id] + p.free[1..];
    assert forall x :: x in p.free <==> x == id || x in p.free[1..];
    assert id !in p.free[1..];
  }

  lemma GiveKeepsIds(p: Pool, live: set<nat>, id: nat)
    requires IdsOk(p, live) && id in live
    ensures IdsOk(Give(p, id), live - {id})
  {
    GiveIsFifo(p, id, IDS);
    AppendDistinct(p.free, id);
  }

  lemma CreateKeepsIndex(rooms: map<nat, Room>, composite: set<nat>, buckets: map<(nat, nat), set<nat>>,
                         b: nat, r: Room)
    requires IndexOk(rooms, composite, buckets) && b !in rooms
    ensures IndexOk(rooms[b := r], composite + {b}, buckets[r.Place() := Bucket(buckets, r.Place()) + {b}])
  {
  }

  lemma DestroyKeepsIndex(rooms: map<nat, Room>, composite: set<nat>, buckets: map<(nat, nat), set<nat>>, b: nat)
    requires IndexOk(rooms, composite, buckets) && b in rooms
    ensures var k := rooms[b].Place();
            b in Bucket(buckets, k) && IndexOk(rooms - {b}, composite - {b}, buckets[k := Bucket(buckets, k) - {b}])
  {
  }

  lemma ReplaceKeepsIndex(rooms: map<nat, Room>, composite: set<nat>, buckets: map<(nat, nat), set<nat>>,
                          b: nat, r: Room)
    requires IndexOk(rooms, composite, buckets) && b in rooms && r.Place() == rooms[b].Place()
    ensures IndexOk(rooms[b := r], composite, buckets) && rooms[b := r].Keys == rooms.Keys
  {
  }

  lemma CreateKeepsInv(s: State, u: Uid, r: Room)
    requires Inv(s) && u in s.seats && s.seats[u].btl == 0
    requires r.players == [u] && r.limit == r.limit0 && r.joins == 0 && (!r.team ==> r.mode == Pve)
    ensures Inv(CreateRoom(s, u, r))
    ensures CreateRoom(s, u, r).seats.Keys == s.seats.Keys
  {
    if s.pool.free != [] {
      var b := s.pool.free[0];
      var t := CreateRoom(s, u, r);
      TakeKeepsIds(s.pool, s.rooms.Keys);
      CreateKeepsIndex(s.rooms, s.composite, s.buckets, b, r);
      assert t.rooms.Keys == s.rooms.Keys + {b};
      forall c | c in t.rooms && t.rooms[c].PveTeam()
        ensures Led(t.rooms[c], t.seats)
      {
        assert c != b ==> u !in s.rooms[c].players;
      }
    }
  }

  lemma AddKeepsInv(s: State, u: Uid, b: nat)
    requires Inv(s) && u in s.seats && s.seats[u].btl == 0 && !s.seats[u].leader
    requires b in s.rooms && s.rooms[b].team && !s.rooms[b].Full()
    ensures Inv(AddMember(s, u, b))
  {
    var r := s.rooms[b];
    var t := AddMember(s, u, b);
    AppendDistinct(r.players, u);
    ReplaceKeepsIndex(s.rooms, s.composite, s.buckets, b, t.rooms[b]);
    forall c | c in t.rooms && t.rooms[c].PveTeam()
      ensures Led(t.rooms[c], t.seats)
    {
      assert Led(s.rooms[c], s.seats);
      assert u !in s.rooms[c].players;
    }
  }

  /** What a departure leaves of one room. */
  lemma WithoutMemberKeepsRoom(r: Room, u: Uid)
    requires RoomOk(r) && u in r.players
    ensures var rest := Erase(r.players, u);
            && Distinct(rest) && (forall v :: v in rest <==> v in r.players && v != u)
            && (rest != [] ==> r.team && RoomOk(WithoutMember(r, u)))
            && (rest == [] ==> r.players == [u])
            && (rest != [] ==> rest[0] == if r.players[0] == u then r.players[1] else r.players[0])
  {
    EraseFromDistinct(r.players, u);
    if Erase(r.players, u) == [] {
      assert |r.players| == 1 && r.players[0] == u;
    }
  }

  lemma SeatsWithoutMovesNobody(seats: map<Uid, Seat>, u: Uid, r: Room)
    requires u in seats
    ensures var left := SeatsWithout(seats, u, r);
            && left.Keys == seats.Keys - {u}
            && forall v :: v in left ==> left[v].btl == seats[v].btl && left[v].fd == seats[v].fd
  {
  }

  lemma LeaveKeepsOwnership(rooms: map<nat, Room>, seats: map<Uid, Seat>, u: Uid, b: nat, r: Room, left: map<Uid, Seat>)
    requires OwnOk(rooms, seats) && u in seats && b in rooms && seats[u].btl == b
    requires left.Keys == seats.Keys - {u} && forall v :: v in left ==> left[v].btl == seats[v].btl
    requires forall v :: v in r.players <==> v in rooms[b].players && v != u
    ensures OwnOk(rooms[b := r], left)
  {
  }

  /** Succession: when the leader leaves, the next first player becomes the leader. */
  lemma LeaveKeepsLeader(r: Room, seats: map<Uid, Seat>, u: Uid)
    requires RoomOk(r) && u in r.players && r.PveTeam() && Led(r, seats) && Erase(r.players, u) != []
    ensures Led(WithoutMember(r, u), SeatsWithout(seats, u, r))
  {
    WithoutMemberKeepsRoom(r, u);
  }

  lemma OtherRoomsKeepTheirLeader(r: Room, seats: map<Uid, Seat>, u: Uid, left: Room)
    requires Led(r, seats) && u in seats && forall v :: v in r.players ==> v != u && v !in left.players
    requires RoomOk(left) && u in left.players
    ensures Led(r, SeatsWithout(seats, u, left))
  {
    WithoutMemberKeepsRoom(left, u);
  }

  lemma DelSeatlessKeepsInv(s: State, u: Uid)
    requires Inv(s) && u in s.seats && s.seats[u].btl == 0
    ensures Inv(s.(seats := s.seats - {u}))
  {
    forall b | b in s.rooms && s.rooms[b].PveTeam()
      ensures Led(s.rooms[b], s.seats - {u})
    {
      assert Led(s.rooms[b], s.seats);
    }
  }

  /** del_player keeps the invariant, for whichever player it ends. */
  lemma DelKeepsInv(s: State, u: Uid)
    requires Inv(s)
    ensures Inv(DelPlayer(s, u)) && DelPlayer(s, u).seats.Keys == s.seats.Keys - {u}
  {
    if u in s.seats {
      var b := s.seats[u].btl;
      if b !in s.rooms {
        DelSeatlessKeepsInv(s, u);
      } else if Erase(s.rooms[b].players, u) == [] {
        DelLastKeepsInv(s, u, b);
      } else {
        DelOneKeepsInv(s, u, b);
      }
    }
  }

  lemma LastLeaves(s: State, u: Uid, b: nat)
    requires OwnOk(s.rooms, s.seats) && LeadOk(s.rooms, s.seats) && b in s.rooms && s.rooms[b].players == [u]
    ensures OwnOk(s.rooms - {b}, s.seats - {u}) && LeadOk(s.rooms - {b}, s.seats - {u})
  {
    var rooms, seats := s.rooms - {b}, s.seats - {u};
    assert u in s.rooms[b].players;
    forall c | c in rooms && rooms[c].PveTeam()
      ensures Led(rooms[c], seats)
    {
      assert Led(s.rooms[c], s.seats);
    }
    forall v | v in seats && seats[v].btl != 0
      ensures seats[v].btl in rooms && v in rooms[seats[v].btl].players
    {
      assert seats[v] == s.seats[v] && v in s.rooms[s.seats[v].btl].players;
    }
    forall c, v | c in rooms && v in rooms[c].players
      ensures v in seats && seats[v].btl == c
    {
      assert c in s.rooms && v in s.rooms[c].players && s.seats[u].btl == b;
    }
  }

  lemma DelLastEffect(s: State, u: Uid, b: nat)
    requires u in s.seats && s.seats[u].btl == b && b in s.rooms && Erase(s.rooms[b].players, u) == []
    requires b in Bucket(s.buckets, s.rooms[b].Place())
    ensures var k := s.rooms[b].Place();
            DelPlayer(s, u) == State(Give(s.pool, b), s.rooms - {b}, s.composite - {b},
                                     s.buckets[k := Bucket(s.buckets, k) - {b}], s.seats - {u})
  {
    var r := WithoutMember(s.rooms[b], u);
    assert s.rooms[b := r] - {b} == s.rooms - {b};
  }

  lemma DelLastKeepsInv(s: State, u: Uid, b: nat)
    requires Inv(s) && u in s.seats && s.seats[u].btl == b && b in s.rooms && Erase(s.rooms[b].players, u) == []
    ensures Inv(DelPlayer(s, u)) && DelPlayer(s, u).seats == s.seats - {u}
    ensures DelPlayer(s, u).rooms == s.rooms - {b} && DelPlayer(s, u).pool == Give(s.pool, b)
  {
    WithoutMemberKeepsRoom(s.rooms[b], u);
    GiveKeepsIds(s.pool, s.rooms.Keys, b);
    DestroyKeepsIndex(s.rooms, s.composite, s.buckets, b);
    DelLastEffect(s, u, b);
    LastLeaves(s, u, b);
    assert (s.rooms - {b}).Keys == s.rooms.Keys - {b};
  }

  lemma DelOneKeepsInv(s: State, u: Uid, b: nat)
    requires Inv(s) && u in s.seats && s.seats[u].btl == b && b in s.rooms && Erase(s.rooms[b].players, u) != []
    ensures Inv(DelPlayer(s, u)) && DelPlayer(s, u).seats == SeatsWithout(s.seats, u, s.rooms[b])
    ensures DelPlayer(s, u).seats.Keys == s.seats.Keys - {u}
    ensures DelPlayer(s, u).rooms == s.rooms[b := WithoutMember(s.rooms[b], u)] && DelPlayer(s, u).pool == s.pool
  {
    var t := DelPlayer(s, u);
    WithoutMemberKeepsRoom(s.rooms[b], u);
    SeatsWithoutMovesNobody(s.seats, u, s.rooms[b]);
    LeaveKeepsOwnership(s.rooms, s.seats, u, b, t.rooms[b], t.seats);
    ReplaceKeepsIndex(s.rooms, s.composite, s.buckets, b, t.rooms[b]);
    forall c | c in t.rooms && t.rooms[c].PveTeam()
      ensures Led(t.rooms[c], t.seats)
    {
      if c == b {
        LeaveKeepsLeader(s.rooms[b], s.seats, u);
      } else {
        assert forall v :: v in s.rooms[c].players ==> s.seats[v].btl == c;
        OtherRoomsKeepTheirLeader(s.rooms[c], s.seats, u, s.rooms[b]);
      }
    }
  }

  lemma SeatNewKeepsInv(s: State, u: Uid, fd: int)
    requires Inv(s)
    ensures Inv(SeatNew(s, u, fd)) && u in SeatNew(s, u, fd).seats
            && SeatNew(s, u, fd).seats[u] == Seat(fd, 0, false, false)
  {
    DelKeepsInv(s, u);
    var d, t := DelPlayer(s, u), SeatNew(s, u, fd);
    forall b | b in t.rooms && t.rooms[b].PveTeam()
      ensures Led(t.rooms[b], t.seats)
    {
      assert Led(d.rooms[b], d.seats);
    }
  }

  /** Flags of a room, and the limit of a PvP room, do not matter to the invariant. */
  lemma TweakKeepsInv(s: State, b: nat, r: Room)
    requires Inv(s) && b in s.rooms && r.Place() == s.rooms[b].Place() && r.players == s.rooms[b].players
    requires r.mode == s.rooms[b].mode && r.team == s.rooms[b].team
    requires r.PveTeam() ==> r.limit == s.rooms[b].limit && r.limit0 == s.rooms[b].limit0 && r.joins == s.rooms[b].joins
    ensures Inv(s.(rooms := s.rooms[b := r]))
  {
    ReplaceKeepsIndex(s.rooms, s.composite, s.buckets, b, r);
    var rooms := s.rooms[b := r];
    assert forall c :: c in rooms ==>
        rooms[c].players == s.rooms[c].players && rooms[c].PveTeam() == s.rooms[c].PveTeam();
    TweakKeepsPeople(s, rooms);
  }

  lemma TweakKeepsPeople(s: State, rooms: map<nat, Room>)
    requires OwnOk(s.rooms, s.seats) && LeadOk(s.rooms, s.seats) && rooms.Keys == s.rooms.Keys
    requires forall c :: c in rooms ==>
        rooms[c].players == s.rooms[c].players && rooms[c].PveTeam() == s.rooms[c].PveTeam()
    ensures OwnOk(rooms, s.seats) && LeadOk(rooms, s.seats)
  {
    forall c | c in rooms && rooms[c].PveTeam()
      ensures Led(rooms[c], s.seats)
    {
      assert Led(s.rooms[c], s.seats);
    }
  }

  lemma SetRoomKeepsInv(s: State, u: Uid, started: bool, hotJoin: bool)
    requires Inv(s) && InWaitingRoom(s, u)
    ensures Inv(DoSetRoom(s, u, started, hotJoin))
  {
    var b := s.seats[u].btl;
    TweakKeepsInv(s, b, s.rooms[b].(started := started, hotJoin := hotJoin));
  }

  // ---- Every command keeps the invariant -------------------------------

  function Unseated(s: State, u: Uid): State
    requires u in s.seats && s.seats[u].btl in s.rooms
  {
    var t := DestroyRoom(s, s.seats[u].btl);
    t.(seats := t.seats[u := t.seats[u].(btl := 0)])
  }

  /** A battle that is no team battle holds its one player, so restart's deletion leaves nobody behind. */
  lemma UnseatKeepsInv(s: State, u: Uid)
    requires Inv(s) && u in s.seats && s.seats[u].btl in s.rooms && !s.rooms[s.seats[u].btl].team
    ensures s.rooms[s.seats[u].btl].players == [u]
    ensures Inv(Unseated(s, u)) && Unseated(s, u).pool.free != []
  {
    var b, t := s.seats[u].btl, Unseated(s, u);
    var r := s.rooms[b];
    assert RoomOk(r) && r.players == [r.players[0]];
    GiveKeepsIds(s.pool, s.rooms.Keys, b);
    DestroyKeepsIndex(s.rooms, s.composite, s.buckets, b);
    assert t.rooms.Keys == s.rooms.Keys - {b};
    forall c | c in t.rooms && t.rooms[c].PveTeam()
      ensures Led(t.rooms[c], t.seats)
    {
      assert Led(s.rooms[c], s.seats) && u !in s.rooms[c].players;
    }
  }

  /** Restart touches no other player and no other battle. */
  lemma RestartOrphansNobody(s: State, u: Uid, switches: bool, at: StageRef)
    requires Inv(s) && u in s.seats && s.seats[u].btl in s.rooms
    requires !s.rooms[s.seats[u].btl].team && (switches ==> at.Stage?)
    ensures var t, b := DoRestart(s, u, switches, at), s.seats[u].btl;
            && s.rooms[b].players == [u] && t.seats.Keys == s.seats.Keys
            && t.seats[u].btl in t.rooms && t.rooms[t.seats[u].btl].players == [u]
            && (forall v :: v in s.seats && v != u ==> t.seats[v] == s.seats[v])
            && (forall c :: c in s.rooms && c != b ==> c in t.rooms && t.rooms[c] == s.rooms[c])
  {
    UnseatKeepsInv(s, u);
    TakeKeepsIds(Unseated(s, u).pool, Unseated(s, u).rooms.Keys);
  }

  lemma RestartKeepsInv(s: State, u: Uid, switches: bool, at: StageRef)
    requires Inv(s)
    ensures Inv(DoRestart(s, u, switches, at))
  {
    if u in s.seats && s.seats[u].btl in s.rooms {
      var r := s.rooms[s.seats[u].btl];
      if !r.team && (switches ==> at.Stage?) {
        UnseatKeepsInv(s, u);
        var to := if switches then at else Stage(r.stage, r.diff);
        CreateKeepsInv(Unseated(s, u), u, NewRoom(Pve, false, to.id, to.diff, u, 2, true));
      }
    }
  }

  /** A player that has just been seated and sits in no battle. */
  ghost predicate Arrived(s: State, u: Uid) {
    Inv(s) && u in s.seats && s.seats[u].btl == 0 && !s.seats[u].leader
  }

  lemma EntryKeepsInv(s: State, u: Uid, room: bv32, hint: Uid, at: StageRef)
    requires Arrived(s, u)
    ensures Inv(DoJoinTeam(s, u, room, hint)) && Inv(DoHotJoin(s, u, room, at))
  {
    DelKeepsInv(s, u);
    var b := TeamBattle(s, LocalId(room));
    if b in s.rooms && !s.rooms[b].Full() {
      AddKeepsInv(s, u, b);
    }
    if at.Stage? {
      var c := RandomBattle(s, at.id, at.diff);
      if c in s.rooms && s.rooms[c].mode == Pve {
        AddKeepsInv(s, u, c);
      }
    }
  }

  lemma PvpKeepsInv(s: State, u: Uid, mode: Mode, room: bv32, invited: bool, at: StageRef, limitNum: nat, grown: nat)
    requires Arrived(s, u) && mode != Pve
    ensures Inv(DoPvp(s, u, mode, room, invited, at, limitNum, grown))
  {
    DelKeepsInv(s, u);
    if at.Stage? {
      CreateKeepsInv(s, u, NewRoom(mode, true, at.id, 1, u, limitNum, true));
      var b := TeamBattle(s, LocalId(room));
      if b in s.rooms && s.rooms[b].mode == mode && !s.rooms[b].Full() {
        AddPvpKeepsInv(s, u, b, grown);
      }
    }
  }

  lemma AddPvpKeepsInv(s: State, u: Uid, b: nat, grown: nat)
    requires Arrived(s, u) && b in s.rooms && s.rooms[b].team && s.rooms[b].mode != Pve && !s.rooms[b].Full()
    ensures var t := AddMember(s, u, b); Inv(t.(rooms := t.rooms[b := t.rooms[b].(limit := grown)]))
  {
    AddKeepsInv(s, u, b);
    var t := AddMember(s, u, b);
    TweakKeepsInv(t, b, t.rooms[b].(limit := grown));
  }

  lemma CreationKeepsInv(s: State, u: Uid, at: StageRef, lvOk: bool, limitNum: nat, refuse: nat)
    requires Arrived(s, u)
    ensures Inv(DoSolo(s, u, at, lvOk)) && Inv(DoCreateTeam(s, u, at, lvOk, limitNum, refuse))
  {
    DelKeepsInv(s, u);
    if at.Stage? {
      CreateKeepsInv(s, u, NewRoom(Pve, false, at.id, at.diff, u, 2, true));
      CreateKeepsInv(s, u, NewRoom(Pve, true, at.id, at.diff, u, limitNum, refuse == 0));
    }
  }

  lemma {:induction false} ClearKeepsInv(s: State, fd: int, order: seq<Uid>)
    requires Inv(s)
    ensures Inv(ClearAll(s, fd, order))
    decreases |order|
  {
    if order != [] {
      DelKeepsInv(s, order[0]);
      var hit := order[0] in s.seats && (s.seats[order[0]].fd == fd || fd == -1);
      ClearKeepsInv(if hit then DelPlayer(s, order[0]) else s, fd, order[1..]);
    }
  }

  lemma WaitingRoomKeepsInv(s: State, u: Uid, flag: nat)
    requires Inv(s)
    ensures Inv(Step(s, Start(u))) && Inv(Step(s, SetHotJoin(u, flag)))
  {
    if InWaitingRoom(s, u) {
      SetRoomKeepsInv(s, u, true, s.rooms[s.seats[u].btl].hotJoin);
      SetRoomKeepsInv(s, u, false, flag == 0);
    }
  }

  predicate StartsBattle(c: Cmd) { c.Solo? || c.CreateTeam? || c.JoinTeam? || c.HotJoin? || (c.Pvp? && c.mode != Pve) }

  lemma EnterKeepsInv(s: State, c: Cmd)
    requires Inv(s) && StartsBattle(c)
    ensures Inv(Step(s, c))
  {
    var t := SeatNew(s, c.u, c.fd);
    SeatNewKeepsInv(s, c.u, c.fd);
    match c
    case Solo(u, _, at, lvOk) => CreationKeepsInv(t, u, at, lvOk, 0, 0);
    case CreateTeam(u, _, at, lvOk, n, refuse) => CreationKeepsInv(t, u, at, lvOk, n, refuse);
    case JoinTeam(u, _, room, hint) => EntryKeepsInv(t, u, room, hint, NoStage);
    case HotJoin(u, _, room, at) => EntryKeepsInv(t, u, room, 0, at);
    case Pvp(u, _, mode, room, invited, at, n, grown) => PvpKeepsInv(t, u, mode, room, invited, at, n, grown);
  }

  /** Every command, in every state that satisfies the invariant, keeps it. */
  lemma StepKeepsInv(s: State, c: Cmd)
    requires Inv(s)
    ensures Inv(Step(s, c))
  {
    if StartsBattle(c) {
      EnterKeepsInv(s, c);
    } else {
      match c
      case Restart(u, switches, at) => RestartKeepsInv(s, u, switches, at);
      case Kick(_, victim) => DelKeepsInv(s, victim);
      case Leave(u) => DelKeepsInv(s, u);
      case Start(u) => WaitingRoomKeepsInv(s, u, 0);
      case SetHotJoin(u, flag) => WaitingRoomKeepsInv(s, u, flag);
      case CloseConn(fd, order) => ClearKeepsInv(s, fd, order);
      case _ =>
    }
  }

  /** Every run of every length from the empty server satisfies the invariant throughout. */
  lemma {:induction false} RunKeepsInv(s: State, cmds: seq<Cmd>)
    requires Inv(s)
    ensures Inv(Run(s, cmds))
    decreases |cmds|
  {
    if cmds != [] {
      StepKeepsInv(s, cmds[0]);
      RunKeepsInv(Step(s, cmds[0]), cmds[1..]);
    }
  }

  lemma StartSatisfiesInv()
    ensures Inv(START) && START.pool.free == UpTo(65533)
  {
    var p := Fresh(IDS);
    assert p.issued + p.free == UpTo(IDS) + p.returned;
    forall id
      ensures id in p.free <==> 1 <= id <= IDS
    {
      if 1 <= id <= IDS {
        assert p.free[id - 1] == id;
      }
    }
  }

  // ---- What the invariant means to the callers -------------------------

  /** The low half of a global room id is the id it was made from, whatever the server id. */
  lemma RoomIdRoundTrip(id: bv32, server: bv32)
    requires (id as nat) < 0x1_0000
    ensures LocalId(GlobalRoomId(id, server)) == id as nat
  {
    assert (id as nat) < 0x1_0000 ==> id < 0x1_0000;
    MaskKeepsLowHalf(id, server);
  }

  lemma MaskKeepsLowHalf(id: bv32, server: bv32)
    requires id < 0x1_0000
    ensures GlobalRoomId(id, server) & 0x0000_ffff == id
  {
  }

  /** A global room id leads back to the team room it was made from. */
  lemma RoomIdFindsItsRoom(s: State, id: bv32, server: bv32)
    requires Inv(s) && id as nat in s.rooms && s.rooms[id as nat].team
    ensures TeamBattle(s, LocalId(GlobalRoomId(id, server))) == id as nat
  {
    LiveIdsAreShort(s, id as nat);
    RoomIdRoundTrip(id, server);
  }

  lemma LiveIdsAreShort(s: State, b: nat)
    requires Inv(s) && b in s.rooms
    ensures 1 <= b <= IDS && b in s.composite
  {
  }

  /** The hint that join checks against the first player is right exactly if it names the one leader in the room. */
  lemma LeaderHintNamesTheLeader(s: State, b: nat, hint: Uid)
    requires Inv(s) && b in s.rooms && s.rooms[b].PveTeam()
    ensures s.rooms[b].players[0] == hint <==> (hint in s.seats && s.seats[hint].btl == b && s.seats[hint].leader)
    ensures forall u, v :: (u in s.seats && v in s.seats && s.seats[u].btl == b == s.seats[v].btl
                            && s.seats[u].leader && s.seats[v].leader) ==> u == v
  {
    assert Led(s.rooms[b], s.seats);
  }

  /**
    Who gets in: a join succeeds exactly for a waiting PvE team room with a
    vacancy whose present leader is the one the caller expects; a full room
    leaves the caller without a battle and every other refusal ends it.
   */
  lemma JoinEntersIff(s: State, u: Uid, room: bv32, hint: Uid)
    requires Arrived(s, u)
    ensures var t, b := DoJoinTeam(s, u, room, hint), LocalId(room);
            var fits := b in s.rooms && s.rooms[b].PveTeam() && !s.rooms[b].started
                        && (hint == 0 || (hint in s.seats && s.seats[hint].btl == b && s.seats[hint].leader));
            && (fits && !s.rooms[b].Full() <==> b in s.rooms && u in t.seats && t.seats[u].btl == b)
            && (fits && s.rooms[b].Full() ==> t == s)
            && (!fits ==> t.seats == s.seats - {u} && t.rooms == s.rooms)
  {
    var b := LocalId(room);
    assert b in s.rooms ==> b in s.composite;
    if b in s.rooms && s.rooms[b].PveTeam() {
      LeaderHintNamesTheLeader(s, b, hint);
    }
  }

  /** Does the room a hot join names take the player in, whatever its mode? */
  predicate TakesHotJoin(s: State, room: bv32) {
    LocalId(room) in s.rooms && s.rooms[LocalId(room)].team && !s.rooms[LocalId(room)].Full()
    && !s.rooms[LocalId(room)].started
  }

  /** The player sits in a room that is no PvE room. */
  predicate InPvpRoom(s: State, u: Uid) {
    u in s.seats && s.seats[u].btl in s.rooms && s.rooms[s.seats[u].btl].mode != Pve
  }

  lemma HotJoinElsewhere(s: State, u: Uid, room: bv32, at: StageRef)
    requires Arrived(s, u) && !(at.Stage? && TakesHotJoin(s, room))
    ensures var t := DoHotJoin(s, u, room, at);
            u in t.seats ==> t.seats[u].btl in t.rooms && t.rooms[t.seats[u].btl].PveTeam()
  {
    DelKeepsInv(s, u);
    if at.Stage? {
      var c := RandomBattle(s, at.id, at.diff);
      assert c in s.rooms && c != 0 ==> s.rooms[c].Open();
    }
  }

  lemma HotJoinEnters(s: State, u: Uid, room: bv32, at: StageRef)
    requires Arrived(s, u) && at.Stage? && TakesHotJoin(s, room)
    ensures DoHotJoin(s, u, room, at) == AddMember(s, u, LocalId(room))
  {
    LiveIdsAreShort(s, LocalId(room));
  }

  /**
    Hot join does not ask for the mode of the room it is sent to: the caller ends
    up in a PvP room exactly if the id it sent names one that waits and has a
    vacancy. Through the random room it only ever gets into PvE team rooms.
   */
  lemma HotJoinIgnoresTheMode(s: State, u: Uid, room: bv32, at: StageRef)
    requires Arrived(s, u)
    ensures InPvpRoom(DoHotJoin(s, u, room, at), u) <==>
              at.Stage? && TakesHotJoin(s, room) && s.rooms[LocalId(room)].mode != Pve
  {
    if at.Stage? && TakesHotJoin(s, room) {
      HotJoinEnters(s, u, room, at);
    } else {
      HotJoinElsewhere(s, u, room, at);
    }
  }

  lemma NewcomerHotJoinsPvp(s: State, u: Uid, fd: int, room: bv32, at: StageRef)
    requires Inv(s) && u !in s.seats && at.Stage? && TakesHotJoin(s, room) && s.rooms[LocalId(room)].mode != Pve
    ensures InPvpRoom(Step(s, HotJoin(u, fd, room, at)), u)
  {
    SeatNewKeepsInv(s, u, fd);
    assert SeatNew(s, u, fd).rooms == s.rooms;
    HotJoinIgnoresTheMode(SeatNew(s, u, fd), u, room, at);
  }

  /** It happens: one player opens a PvP room, another hot-joins by its room id. */
  lemma SomeHotJoinEntersPvp(server: bv32) returns (cmds: seq<Cmd>)
    ensures |cmds| == 2 && cmds[1].HotJoin? && InPvpRoom(Run(START, cmds), cmds[1].u)
  {
    RoomIdRoundTrip(1, server);
    var room := GlobalRoomId(1, server);
    var a, b := Pvp(1, 5, LvMatch, 0, false, Stage(920, 1), 2, 2), HotJoin(2, 5, room, Stage(1, 1));
    PvpOpensARoom();
    StartSatisfiesInv();
    StepKeepsInv(START, a);
    NewcomerHotJoinsPvp(Step(START, a), 2, 5, room, Stage(1, 1));
    cmds := [a, b];
    RunTwo(START, a, b);
  }

  lemma RunTwo(s: State, a: Cmd, b: Cmd)
    ensures Run(s, [a, b]) == Step(Step(s, a), b)
  {
    assert [a, b][1..] == [b] && [b][1..] == [];
    assert Run(s, [a, b]) == Run(Step(s, a), [b]) == Run(Step(Step(s, a), b), []);
  }

  lemma PvpOpensARoom()
    ensures Step(START, Pvp(1, 5, LvMatch, 0, false, Stage(920, 1), 2, 2)).rooms
         == map[1 := NewRoom(LvMatch, true, 920, 1, 1, 2, true)]
    ensures Step(START, Pvp(1, 5, LvMatch, 0, false, Stage(920, 1), 2, 2)).seats.Keys == {1}
  {
    var t := SeatNew(START, 1, 5);
    assert t.seats == map[1 := Seat(5, 0, false, false)] && t.rooms == map[];
    assert Fresh(IDS).free[0] == 1;
  }

  /** A PvE team room created for `limit0` players is never overfull and admits at most limit0 - 1 joins in its life. */
  lemma AtMostOneJoinPerSeat(s: State, b: nat)
    requires Inv(s) && b in s.rooms && s.rooms[b].PveTeam() && s.rooms[b].limit0 >= 1
    ensures |s.rooms[b].players| <= s.rooms[b].limit && s.rooms[b].joins <= s.rooms[b].limit0 - 1
    ensures s.rooms[b].joins == s.rooms[b].limit0 - 1 ==> s.rooms[b].Full()
  {
    assert RoomOk(s.rooms[b]);
  }

  /** get_radom_battle answers with the open room of least id in its bucket, and with none only if there is none. */
  lemma RandomBattleIsTheFirstOpen(s: State, stage: nat, diff: nat)
    requires Inv(s)
    ensures IsRandomBattle(s, stage, diff, RandomBattle(s, stage, diff))
  {
    assert forall x :: x in s.rooms ==> 1 <= x <= IDS;
  }

  // ---- Reuse of ids over whole runs ------------------------------------

  lemma DelGrows(s: State, u: Uid)
    ensures Later(s.pool, DelPlayer(s, u).pool)
  {
    if u in s.seats && s.seats[u].btl in s.rooms {
      assert DelPlayer(s, u).pool == s.pool || DelPlayer(s, u).pool == Give(s.pool, s.seats[u].btl);
    }
  }

  lemma CreateGrows(s: State, u: Uid, r: Room)
    requires u in s.seats
    ensures Later(s.pool, CreateRoom(s, u, r).pool)
  {
  }

  lemma LaterIsTransitive(p: Pool, q: Pool, r: Pool)
    requires Later(p, q) && Later(q, r)
    ensures Later(p, r)
  {
  }

  lemma {:induction false} ClearGrows(s: State, fd: int, order: seq<Uid>)
    ensures Later(s.pool, ClearAll(s, fd, order).pool)
    decreases |order|
  {
    if order != [] {
      var hit := order[0] in s.seats && (s.seats[order[0]].fd == fd || fd == -1);
      var t := if hit then DelPlayer(s, order[0]) else s;
      DelGrows(s, order[0]);
      ClearGrows(t, fd, order[1..]);
      LaterIsTransitive(s.pool, t.pool, ClearAll(t, fd, order[1..]).pool);
    }
  }

  lemma EntryGrows(s: State, u: Uid, c: Cmd)
    requires u in s.seats && StartsBattle(c)
    ensures c.Solo? ==> Later(s.pool, DoSolo(s, u, c.at, c.lvOk).pool)
    ensures c.CreateTeam? ==> Later(s.pool, DoCreateTeam(s, u, c.at, c.lvOk, c.limitNum, c.refuseHotJoin).pool)
    ensures c.JoinTeam? ==> Later(s.pool, DoJoinTeam(s, u, c.room, c.teamLeader).pool)
    ensures c.HotJoin? ==> Later(s.pool, DoHotJoin(s, u, c.room, c.at).pool)
    ensures c.Pvp? ==> Later(s.pool, DoPvp(s, u, c.mode, c.room, c.invited, c.at, c.limitNum, c.grown).pool)
  {
    DelGrows(s, u);
    match c
    case Solo(_, _, at, _) => if at.Stage? { CreateGrows(s, u, NewRoom(Pve, false, at.id, at.diff, u, 2, true)); }
    case CreateTeam(_, _, at, _, n, refuse) =>
      if at.Stage? { CreateGrows(s, u, NewRoom(Pve, true, at.id, at.diff, u, n, refuse == 0)); }
    case Pvp(_, _, mode, _, _, at, n, _) =>
      if at.Stage? { CreateGrows(s, u, NewRoom(mode, true, at.id, 1, u, n, true)); }
    case _ =>
  }

  lemma RestartGrows(s: State, u: Uid, switches: bool, at: StageRef)
    ensures Later(s.pool, DoRestart(s, u, switches, at).pool)
  {
    if u in s.seats && s.seats[u].btl in s.rooms {
      var r := s.rooms[s.seats[u].btl];
      if !r.team && (switches ==> at.Stage?) {
        var t, to := Unseated(s, u), if switches then at else Stage(r.stage, r.diff);
        CreateGrows(t, u, NewRoom(Pve, false, to.id, to.diff, u, 2, true));
        LaterIsTransitive(s.pool, t.pool, DoRestart(s, u, switches, at).pool);
      }
    }
  }

  lemma HistoriesGrow(s: State, c: Cmd)
    ensures Later(s.pool, Step(s, c).pool)
  {
    if StartsBattle(c) {
      var t := SeatNew(s, c.u, c.fd);
      DelGrows(s, c.u);
      EntryGrows(t, c.u, c);
      LaterIsTransitive(s.pool, t.pool, Step(s, c).pool);
    } else {
      match c
      case CloseConn(fd, order) => ClearGrows(s, fd, order);
      case Restart(u, switches, at) => RestartGrows(s, u, switches, at);
      case Kick(_, victim) => DelGrows(s, victim);
      case Leave(u) => DelGrows(s, u);
      case _ =>
    }
  }

  lemma {:induction false} HistoriesGrowOverRuns(s: State, cmds: seq<Cmd>)
    ensures Later(s.pool, Run(s, cmds).pool)
    decreases |cmds|
  {
    if cmds != [] {
      HistoriesGrow(s, cmds[0]);
      HistoriesGrowOverRuns(Step(s, cmds[0]), cmds[1..]);
    }
  }

  /**
    Isolation of dead battles: an id with `k` free ids ahead of it names no
    battle until k more battles were created, in every run; the next battle
    after those gets it. A command or room id that still carries it finds
    nothing before then.
   */
  lemma DeadIdStaysDead(s: State, k: nat, cmds: seq<Cmd>)
    requires Inv(s) && k < |s.pool.free|
    ensures Later(s.pool, Run(s, cmds).pool)
    ensures var t, b := Run(s, cmds), s.pool.free[k];
            && (Created(s.pool, t.pool) <= k ==> b !in t.rooms && TeamBattle(t, b) == 0
                                                 && forall u :: u in t.seats ==> t.seats[u].btl != b)
            && (Created(s.pool, t.pool) > k ==> t.pool.issued[|s.pool.issued| + k] == b)
  {
    var t, b := Run(s, cmds), s.pool.free[k];
    HistoriesGrowOverRuns(s, cmds);
    RunKeepsInv(s, cmds);
    IssuedInFreeOrder(s.pool, t.pool, k, IDS);
    assert Created(s.pool, t.pool) <= k ==> b in t.pool.free;
    assert b in s.pool.free && b != 0;
  }

  // ---- Vacancies over whole runs ---------------------------------------

  /** The same battle later: its mode and its first limit are fixed, and joins only add up. */
  predicate SameRoom(r: Room, q: Room) {
    q.mode == r.mode && q.team == r.team && q.limit0 == r.limit0 && q.joins >= r.joins
  }

  /** A battle of `s` whose id was not given back since is still there in `t`, and is the same battle. */
  ghost predicate Ages(s: State, t: State) {
    && s.pool.returned <= t.pool.returned
    && forall b :: b in s.rooms && b !in t.pool.returned[|s.pool.returned|..] ==>
          b in t.rooms && SameRoom(s.rooms[b], t.rooms[b])
  }

  lemma SuffixesSplit(p: seq<nat>, q: seq<nat>, r: seq<nat>, b: nat)
    requires p <= q <= r && b !in r[|p|..]
    ensures b !in q[|p|..] && b !in r[|q|..]
  {
    assert r[|p|..] == q[|p|..] + r[|q|..];
  }

  lemma AgesTransitive(s: State, t: State, u: State)
    requires Ages(s, t) && Ages(t, u)
    ensures Ages(s, u)
  {
    forall b | b in s.rooms && b !in u.pool.returned[|s.pool.returned|..]
      ensures b in u.rooms && SameRoom(s.rooms[b], u.rooms[b])
    {
      SuffixesSplit(s.pool.returned, t.pool.returned, u.pool.returned, b);
    }
  }

  lemma DestroyAges(s: State, b: nat, t: State)
    requires b in s.rooms && t.rooms == s.rooms - {b} && t.pool == Give(s.pool, b)
    ensures Ages(s, t)
  {
    assert t.pool.returned[|s.pool.returned|..] == [b];
  }

  lemma DelAges(s: State, u: Uid)
    requires Inv(s)
    ensures Ages(s, DelPlayer(s, u)) && forall fd :: Ages(s, SeatNew(s, u, fd))
  {
    if u in s.seats && s.seats[u].btl in s.rooms {
      var b := s.seats[u].btl;
      if Erase(s.rooms[b].players, u) == [] {
        DelLastKeepsInv(s, u, b);
        DestroyAges(s, b, DelPlayer(s, u));
      } else {
        DelOneKeepsInv(s, u, b);
      }
    }
  }

  lemma CreateAges(s: State, u: Uid, r: Room)
    requires IdsOk(s.pool, s.rooms.Keys) && u in s.seats
    ensures Ages(s, CreateRoom(s, u, r))
  {
    if s.pool.free != [] {
      TakeKeepsIds(s.pool, s.rooms.Keys);
    }
  }

  lemma AddAges(s: State, u: Uid, b: nat, limit: nat)
    requires u in s.seats && b in s.rooms
    ensures var t := AddMember(s, u, b); Ages(s, t) && Ages(s, t.(rooms := t.rooms[b := t.rooms[b].(limit := limit)]))
  {
  }

  lemma CreationAges(s: State, u: Uid, at: StageRef, lvOk: bool, limitNum: nat, refuse: nat)
    requires Inv(s) && u in s.seats
    ensures Ages(s, DoSolo(s, u, at, lvOk)) && Ages(s, DoCreateTeam(s, u, at, lvOk, limitNum, refuse))
  {
    DelAges(s, u);
    if at.Stage? {
      CreateAges(s, u, NewRoom(Pve, false, at.id, at.diff, u, 2, true));
      CreateAges(s, u, NewRoom(Pve, true, at.id, at.diff, u, limitNum, refuse == 0));
    }
  }

  lemma JoinAges(s: State, u: Uid, room: bv32, hint: Uid, at: StageRef)
    requires Inv(s) && u in s.seats
    ensures Ages(s, DoJoinTeam(s, u, room, hint)) && Ages(s, DoHotJoin(s, u, room, at))
  {
    DelAges(s, u);
    var b := TeamBattle(s, LocalId(room));
    if b in s.rooms {
      AddAges(s, u, b, 0);
    }
    if at.Stage? {
      var c := RandomBattle(s, at.id, at.diff);
      if c in s.rooms {
        AddAges(s, u, c, 0);
      }
    }
  }

  lemma PvpAges(s: State, u: Uid, mode: Mode, room: bv32, invited: bool, at: StageRef, limitNum: nat, grown: nat)
    requires Inv(s) && u in s.seats && mode != Pve
    ensures Ages(s, DoPvp(s, u, mode, room, invited, at, limitNum, grown))
  {
    DelAges(s, u);
    if at.Stage? {
      CreateAges(s, u, NewRoom(mode, true, at.id, 1, u, limitNum, true));
      var b := TeamBattle(s, LocalId(room));
      if b in s.rooms {
        AddAges(s, u, b, grown);
      }
    }
  }

  lemma EnterAges(s: State, c: Cmd)
    requires Inv(s) && StartsBattle(c)
    ensures Ages(s, Step(s, c))
  {
    var t := SeatNew(s, c.u, c.fd);
    DelAges(s, c.u);
    SeatNewKeepsInv(s, c.u, c.fd);
    match c {
      case Solo(u, _, at, lvOk) => CreationAges(t, u, at, lvOk, 0, 0);
      case CreateTeam(u, _, at, lvOk, n, refuse) => CreationAges(t, u, at, lvOk, n, refuse);
      case JoinTeam(u, _, room, hint) => JoinAges(t, u, room, hint, NoStage);
      case HotJoin(u, _, room, at) => JoinAges(t, u, room, 0, at);
      case Pvp(u, _, mode, room, invited, at, n, grown) => PvpAges(t, u, mode, room, invited, at, n, grown);
    }
    AgesTransitive(s, t, Step(s, c));
  }

  lemma RestartAges(s: State, u: Uid, switches: bool, at: StageRef)
    requires Inv(s)
    ensures Ages(s, DoRestart(s, u, switches, at))
  {
    if u in s.seats && s.seats[u].btl in s.rooms {
      var r := s.rooms[s.seats[u].btl];
      if !r.team && (switches ==> at.Stage?) {
        var t, to := Unseated(s, u), if switches then at else Stage(r.stage, r.diff);
        UnseatKeepsInv(s, u);
        DestroyAges(s, s.seats[u].btl, t);
        CreateAges(t, u, NewRoom(Pve, false, to.id, to.diff, u, 2, true));
        AgesTransitive(s, t, DoRestart(s, u, switches, at));
      }
    }
  }

  lemma {:induction false} ClearAges(s: State, fd: int, order: seq<Uid>)
    requires Inv(s)
    ensures Ages(s, ClearAll(s, fd, order))
    decreases |order|
  {
    if order != [] {
      var hit := order[0] in s.seats && (s.seats[order[0]].fd == fd || fd == -1);
      var t := if hit then DelPlayer(s, order[0]) else s;
      DelKeepsInv(s, order[0]);
      DelAges(s, order[0]);
      ClearAges(t, fd, order[1..]);
      AgesTransitive(s, t, ClearAll(t, fd, order[1..]));
    }
  }

  lemma StepAges(s: State, c: Cmd)
    requires Inv(s)
    ensures Ages(s, Step(s, c))
  {
    if StartsBattle(c) {
      EnterAges(s, c);
    } else {
      match c
      case CloseConn(fd, order) => ClearAges(s, fd, order);
      case Restart(u, switches, at) => RestartAges(s, u, switches, at);
      case Kick(_, victim) => DelAges(s, victim);
      case Leave(u) => DelAges(s, u);
      case _ =>
    }
  }

  lemma {:induction false} RunAges(s: State, cmds: seq<Cmd>)
    requires Inv(s)
    ensures Ages(s, Run(s, cmds)) && Inv(Run(s, cmds))
    decreases |cmds|
  {
    if cmds != [] {
      StepAges(s, cmds[0]);
      StepKeepsInv(s, cmds[0]);
      RunAges(Step(s, cmds[0]), cmds[1..]);
      AgesTransitive(s, Step(s, cmds[0]), Run(s, cmds));
    }
  }

  /**
    In every run, for as long as a PvE team room lives, its vacancies never
    increase: every departure takes the limit down with it, so each vacancy lost
    is a join that succeeded.
   */
  lemma VacanciesNeverIncrease(s: State, cmds: seq<Cmd>, b: nat)
    requires Inv(s) && b in s.rooms && s.rooms[b].PveTeam() && s.rooms[b].limit0 >= 1
    requires |s.pool.returned| <= |Run(s, cmds).pool.returned| && b !in Run(s, cmds).pool.returned[|s.pool.returned|..]
    ensures s.pool.returned <= Run(s, cmds).pool.returned
    ensures var t := Run(s, cmds);
            && b in t.rooms && t.rooms[b].PveTeam()
            && (t.rooms[b].limit - |t.rooms[b].players|) + (t.rooms[b].joins - s.rooms[b].joins)
               == s.rooms[b].limit - |s.rooms[b].players|
            && t.rooms[b].joins >= s.rooms[b].joins
  {
    RunAges(s, cmds);
    assert RoomOk(s.rooms[b]) && RoomOk(Run(s, cmds).rooms[b]);
  }

  // ---- Closing a connection --------------------------------------------

  /** `t` is `s` after exactly the players `gone` were ended. */
  ghost predicate Cleared(s: State, t: State, gone: set<Uid>) {
    && t.seats.Keys == s.seats.Keys - gone
    && (forall u :: u in t.seats ==> t.seats[u].btl == s.seats[u].btl && t.seats[u].fd == s.seats[u].fd)
    && (forall b :: b in t.rooms <==> b in s.rooms && Keep(s.rooms[b].players, gone) != [])
    && (forall b :: b in t.rooms ==> t.rooms[b].players == Keep(s.rooms[b].players, gone))
  }

  lemma OneMoreOut(s: State, gone: set<Uid>, u: Uid, c: nat)
    requires Inv(s) && c in s.rooms
    ensures u !in s.rooms[c].players ==> Keep(s.rooms[c].players, gone + {u}) == Keep(s.rooms[c].players, gone)
    ensures Keep(s.rooms[c].players, gone + {u}) == Erase(Keep(s.rooms[c].players, gone), u)
  {
    assert RoomOk(s.rooms[c]);
    EraseIsKeep(s.rooms[c].players, gone, u);
    if u !in s.rooms[c].players {
      NothingToKeepOut(s.rooms[c].players, gone, u);
    }
  }

  /** The rooms after one more player was taken out, one of them perhaps with it. */
  lemma OneMoreRoom(s: State, t: State, gone: set<Uid>, u: Uid, rooms: map<nat, Room>)
    requires Inv(s) && Inv(t) && Cleared(s, t, gone) && u in t.seats
    requires var b := t.seats[u].btl;
             if b !in t.rooms then rooms == t.rooms
             else if Erase(t.rooms[b].players, u) == [] then rooms == t.rooms - {b}
             else rooms == t.rooms[b := WithoutMember(t.rooms[b], u)]
    ensures forall c :: c in rooms <==> c in s.rooms && Keep(s.rooms[c].players, gone + {u}) != []
    ensures forall c :: c in rooms ==> rooms[c].players == Keep(s.rooms[c].players, gone + {u})
  {
    forall c | c in s.rooms
      ensures c in rooms <==> Keep(s.rooms[c].players, gone + {u}) != []
      ensures c in rooms ==> rooms[c].players == Keep(s.rooms[c].players, gone + {u})
    {
      OneMoreOut(s, gone, u, c);
      SitsWhereItSat(s, t, gone, u, c);
    }
  }

  lemma SitsWhereItSat(s: State, t: State, gone: set<Uid>, u: Uid, c: nat)
    requires OwnOk(s.rooms, s.seats) && OwnOk(t.rooms, t.seats) && Cleared(s, t, gone) && u in t.seats && c in s.rooms
    ensures u in s.rooms[c].players <==> c == t.seats[u].btl
    ensures c == t.seats[u].btl ==> c in t.rooms
  {
    assert s.seats[u].btl == t.seats[u].btl;
  }

  lemma OneMoreCleared(s: State, t: State, gone: set<Uid>, u: Uid)
    requires Inv(s) && Inv(t) && Cleared(s, t, gone) && u in t.seats
    ensures Cleared(s, DelPlayer(t, u), gone + {u})
  {
    var b, d := t.seats[u].btl, DelPlayer(t, u);
    DelKeepsInv(t, u);
    SeatsAfterDel(t, u);
    OneMoreRoom(s, t, gone, u, d.rooms);
  }

  lemma SeatsAfterDel(t: State, u: Uid)
    requires Inv(t) && u in t.seats
    ensures var b, d := t.seats[u].btl, DelPlayer(t, u);
            && (forall v :: v in d.seats ==>
                  v in t.seats && d.seats[v].btl == t.seats[v].btl && d.seats[v].fd == t.seats[v].fd)
            && if b !in t.rooms then d.rooms == t.rooms
               else if Erase(t.rooms[b].players, u) == [] then d.rooms == t.rooms - {b}
               else d.rooms == t.rooms[b := WithoutMember(t.rooms[b], u)]
  {
    var b := t.seats[u].btl;
    if b in t.rooms {
      SeatsWithoutMovesNobody(t.seats, u, t.rooms[b]);
      if Erase(t.rooms[b].players, u) == [] {
        DelLastKeepsInv(t, u, b);
      } else {
        DelOneKeepsInv(t, u, b);
      }
    }
  }

  /** Does closing `fd` end this player? */
  predicate Hit(seat: Seat, fd: int) { seat.fd == fd || fd == -1 }

  /** The players of `seats` that closing `fd` ends. */
  function HitBy(seats: map<Uid, Seat>, fd: int): set<Uid> { set u | u in seats && Hit(seats[u], fd) }

  lemma ClearsOne(s: State, t: State, gone: set<Uid>, fd: int, u: Uid)
    requires Inv(s) && Inv(t) && Cleared(s, t, gone) && u in HitBy(t.seats, fd)
    ensures var d := DelPlayer(t, u);
            && Inv(d) && Cleared(s, d, gone + {u})
            && forall v :: v in HitBy(d.seats, fd) <==> v in HitBy(t.seats, fd) && v != u
  {
    DelKeepsInv(t, u);
    SeatsAfterDel(t, u);
    OneMoreCleared(s, t, gone, u);
  }

  lemma {:induction false} ClearsWhatItVisits(s: State, t: State, gone: set<Uid>, fd: int, order: seq<Uid>)
    returns (all: set<Uid>)
    requires Inv(s) && Inv(t) && Cleared(s, t, gone)
    ensures forall u :: u in all <==> u in gone || (u in order && u in HitBy(t.seats, fd))
    ensures Cleared(s, ClearAll(t, fd, order), all)
    decreases |order|
  {
    if order == [] {
      all := gone;
    } else {
      var u := order[0];
      if u in HitBy(t.seats, fd) {
        ClearsOne(s, t, gone, fd, u);
        all := ClearsWhatItVisits(s, DelPlayer(t, u), gone + {u}, fd, order[1..]);
      } else {
        all := ClearsWhatItVisits(s, t, gone, fd, order[1..]);
      }
      assert forall v :: v in order <==> v == u || v in order[1..];
    }
  }

  lemma NobodyCleared(s: State)
    requires Inv(s)
    ensures Cleared(s, s, {})
  {
    forall b | b in s.rooms
      ensures Keep(s.rooms[b].players, {}) == s.rooms[b].players && s.rooms[b].players != []
    {
      KeepNobodyOut(s.rooms[b].players);
      assert RoomOk(s.rooms[b]);
    }
  }

  /**
    Closing a connection ends exactly the players on it, in whatever order they
    are visited; everybody else keeps the battle it had; a battle survives
    exactly if it still holds somebody, with its other players in their order.
   */
  lemma ClosingEndsExactlyItsPlayers(s: State, fd: int, order: seq<Uid>)
    requires Inv(s) && forall u :: u in s.seats ==> u in order
    ensures Cleared(s, ClearAll(s, fd, order), HitBy(s.seats, fd))
  {
    NobodyCleared(s);
    var all := ClearsWhatItVisits(s, s, {}, fd, order);
    assert all == HitBy(s.seats, fd);
  }
}
