/**
  The registry as the server keeps it: fields that the command handlers change
  in place, each handler tied to the step of the registry it performs.
 */
module BattleServer {
  import opened IdPool
  import opened Registry
  import opened Sequences

  class Server {
    const battleIds: BattleIdList
    var rooms: map<nat, Room>
    var composite: set<nat>
    var buckets: map<(nat, nat), set<nat>>
    var seats: map<Uid, Seat>

    ghost function State(): State
      reads this, battleIds
    {
      Registry.State(battleIds.State(), rooms, composite, buckets, seats)
    }

    constructor ()
      ensures State() == START && fresh(battleIds)
    {
      battleIds := new BattleIdList();
      rooms, composite, buckets, seats := map[], {}, map[], map[];
    }

    /** Battle::Battle with BattleManager::add_battle. */
    method NewBattle(u: Uid, r: Room)
      requires u in seats
      modifies this, battleIds
      ensures State() == CreateRoom(old(State()), u, r)
    {
      if battleIds.ids == [] {
        return;
      }
      var b := battleIds.ProduceBattleId();
      rooms := rooms[b := r];
      seats := seats[u := seats[u].(btl := b, leader := true, inTeam := seats[u].inTeam || r.team)];
      var k := r.Place();
      buckets := buckets[k := Bucket(buckets, k) + {b}];
      composite := composite + {b};
    }

    /** Battle::~Battle with BattleManager::del_battle. */
    method DeleteBattle(b: nat)
      requires b in rooms
      modifies this, battleIds
      ensures State() == DestroyRoom(old(State()), b)
    {
      battleIds.ReleaseBattleId(b);
      var k := rooms[b].Place();
      if b in Bucket(buckets, k) {
        composite := composite - {b};
      }
      buckets := buckets[k := Bucket(buckets, k) - {b}];
      rooms := rooms - {b};
    }

    /** Battle::del_player with leave_room, for a player that sits in `b`. */
    method LeaveBattle(u: Uid, b: nat)
      requires u in seats && b in rooms
      modifies this
      ensures rooms == old(rooms)[b := WithoutMember(old(rooms[b]), u)]
              && seats == SeatsWithout(old(seats), u, old(rooms[b]))
      ensures composite == old(composite) && buckets == old(buckets)
    {
      var r := rooms[b];
      r := r.(players := Erase(r.players, u));
      r := r.(limit := if r.limit > 0 then r.limit - 1 else 0);
      rooms := rooms[b := r];
      if seats[u].inTeam && r.mode == Pve && seats[u].leader && r.players != [] {
        var next := r.players[0];
        if next in seats {
          seats := seats[next := seats[next].(leader := true)];
        }
      }
      seats := seats - {u};
    }

    method DelPlayer(u: Uid)
      modifies this, battleIds
      ensures State() == Registry.DelPlayer(old(State()), u)
    {
      if u !in seats {
        return;
      }
      var b := seats[u].btl;
      if b in rooms {
        LeaveBattle(u, b);
        if rooms[b].players == [] {
          DeleteBattle(b);
        }
      } else {
        seats := seats - {u};
      }
    }

    method AddPlayer(u: Uid, b: nat)
      requires u in seats && b in rooms
      modifies this
      ensures State() == AddMember(old(State()), u, b)
    {
      var r := rooms[b];
      rooms := rooms[b := r.(players := r.players + [u], joins := r.joins + 1)];
      seats := seats[u := seats[u].(btl := b, inTeam := true)];
    }

    /** What dispatch does when a battle-starting command arrives. */
    method Seat(u: Uid, fd: int)
      modifies this, battleIds
      ensures State() == SeatNew(old(State()), u, fd)
    {
      DelPlayer(u);
      seats := seats[u := Registry.Seat(fd, 0, false, false)];
    }

    method GetBattle(room: nat) returns (b: nat)
      ensures b == TeamBattle(State(), room)
    {
      if room in composite && room in rooms && rooms[room].team {
        return room;
      }
      return 0;
    }

    /** Walks the bucket in the order of its ids and stops at the first open room. */
    method GetRadomBattle(stage: nat, diff: nat) returns (b: nat)
      ensures b == RandomBattle(State(), stage, diff)
    {
      var bucket := Bucket(buckets, (stage, diff));
      b := 1;
      while b <= IDS
        invariant 1 <= b <= IDS + 1
        invariant OpenFrom(State(), bucket, b) == RandomBattle(State(), stage, diff)
      {
        if b in bucket && b in rooms && rooms[b].Open() {
          return;
        }
        b := b + 1;
      }
      b := 0;
    }

    method PveBattle(u: Uid, fd: int, at: StageRef, lvOk: bool)
      modifies this, battleIds
      ensures State() == Step(old(State()), Solo(u, fd, at, lvOk))
    {
      Seat(u, fd);
      if at.Stage? && lvOk {
        NewBattle(u, NewRoom(Pve, false, at.id, at.diff, u, 2, true));
      }
    }

    method CreateBattleTeam(u: Uid, fd: int, at: StageRef, lvOk: bool, limitNum: nat, refuseHotJoin: nat)
      modifies this, battleIds
      ensures State() == Step(old(State()), CreateTeam(u, fd, at, lvOk, limitNum, refuseHotJoin))
    {
      Seat(u, fd);
      if at.NoStage? {
        DelPlayer(u);
      } else if lvOk {
        NewBattle(u, NewRoom(Pve, true, at.id, at.diff, u, limitNum, refuseHotJoin == 0));
      }
    }

    method JoinBattleTeam(u: Uid, fd: int, room: bv32, teamLeader: Uid)
      modifies this, battleIds
      ensures State() == Step(old(State()), JoinTeam(u, fd, room, teamLeader))
    {
      Seat(u, fd);
      var b := GetBattle(LocalId(room));
      if b !in rooms || rooms[b].started || rooms[b].mode != Pve
         || (teamLeader != 0 && (rooms[b].players == [] || rooms[b].players[0] != teamLeader)) {
        DelPlayer(u);
        return;
      }
      if rooms[b].Full() {
        return;
      }
      AddPlayer(u, b);
    }

    method HotJoinBattleTeam(u: Uid, fd: int, room: bv32, at: StageRef)
      modifies this, battleIds
      ensures State() == Step(old(State()), HotJoin(u, fd, room, at))
    {
      Seat(u, fd);
      if at.NoStage? {
        DelPlayer(u);
        return;
      }
      var b := GetBattle(LocalId(room));
      if b !in rooms || rooms[b].Full() || rooms[b].started {
        b := GetRadomBattle(at.id, at.diff);
        if b !in rooms || rooms[b].mode != Pve {
          DelPlayer(u);
          return;
        }
      }
      AddPlayer(u, b);
    }

    method PvpBattle(u: Uid, fd: int, mode: Mode, room: bv32, invited: bool, at: StageRef, limitNum: nat, grown: nat)
      requires mode != Pve
      modifies this, battleIds
      ensures State() == Step(old(State()), Pvp(u, fd, mode, room, invited, at, limitNum, grown))
    {
      Seat(u, fd);
      if at.NoStage? {
        DelPlayer(u);
        return;
      }
      var b := GetBattle(LocalId(room));
      if b in rooms && rooms[b].mode != mode {
        DelPlayer(u);
        return;
      }
      if b !in rooms || rooms[b].Full() || rooms[b].started {
        if invited && LocalId(room) != 0 {
          DelPlayer(u);
        } else {
          NewBattle(u, NewRoom(mode, true, at.id, 1, u, limitNum, true));
        }
        return;
      }
      AddPlayer(u, b);
      rooms := rooms[b := rooms[b].(limit := grown)];
    }

    method PlayerBtlRestart(u: Uid, switches: bool, at: StageRef)
      modifies this, battleIds
      ensures State() == Step(old(State()), Restart(u, switches, at))
    {
      if u !in seats || seats[u].btl !in rooms {
        return;
      }
      var b := seats[u].btl;
      var r := rooms[b];
      if r.team {
        return;
      }
      var to := Stage(r.stage, r.diff);
      if switches {
        if at.NoStage? {
          return;
        }
        to := at;
      }
      DeleteBattle(b);
      seats := seats[u := seats[u].(btl := 0)];
      NewBattle(u, NewRoom(Pve, false, to.id, to.diff, u, 2, true));
    }

    method KickUserFromRoom(u: Uid, victim: Uid)
      modifies this, battleIds
      ensures State() == Step(old(State()), Kick(u, victim))
    {
      if victim in seats && u in seats && seats[u].btl in rooms && !rooms[seats[u].btl].started {
        DelPlayer(victim);
      }
    }

    method LeaveBattleTeam(u: Uid)
      modifies this, battleIds
      ensures State() == Step(old(State()), Leave(u))
    {
      DelPlayer(u);
    }

    method StartBattleTeam(u: Uid)
      modifies this
      ensures State() == Step(old(State()), Start(u))
    {
      if u in seats && seats[u].btl in rooms && !rooms[seats[u].btl].started {
        var b := seats[u].btl;
        rooms := rooms[b := rooms[b].(started := true)];
      }
    }

    method SetBtlTeamHotJoin(u: Uid, flag: nat)
      modifies this
      ensures State() == Step(old(State()), SetHotJoin(u, flag))
    {
      if u in seats && seats[u].btl in rooms && !rooms[seats[u].btl].started {
        var b := seats[u].btl;
        rooms := rooms[b := rooms[b].(hotJoin := flag == 0)];
      }
    }

    /** Deletes the players on a connection that went down; `order` is the order in which all_players lists them. */
    method ClearPlayers(fd: int, order: seq<Uid>)
      modifies this, battleIds
      ensures State() == Step(old(State()), CloseConn(fd, order))
    {
      ghost var s := State();
      assert order[0..] == order;
      for i := 0 to |order|
        invariant ClearAll(State(), fd, order[i..]) == ClearAll(s, fd, order)
      {
        assert order[i..][0] == order[i] && order[i..][1..] == order[i + 1..];
        var u := order[i];
        if u in seats && (seats[u].fd == fd || fd == -1) {
          DelPlayer(u);
        }
      }
    }
  }
}
