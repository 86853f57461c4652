# A verified model of the battle server

This project models the battle server of the repository (`gf/battle_svr`) and
the command limiter of `dbser`, and proves what its parts keep over whole runs.
It is written in Dafny 4.11; `dafny verify dfyconfig.toml` checks all of it.

Every stateful part comes twice: as functions on values, on which the theorems
are proved, and as a class whose methods change fields in place, loop and erase
as the source does, each method's postcondition tying the new state to the
function. Random numbers, clocks, configuration tables, replies and the
behaviour of command handlers are parameters, so every theorem is for all of
their values.

The modules whose names end in `Outcomes` say what each operation does in terms
of the packet and the state alone.

| file | part of the server |
|---|---|
| `IdPool.dfy` | battle id free list, first in first out |
| `Registry.dfy`, `RoomOutcomes.dfy`, `BattleServer.dfy` | battles, the two battle indexes, ownership, team leaders, capacity, closing a connection |
| `CommandQueue.dfy`, `QueueOutcomes.dfy`, `AwaitingList.dfy`, `Gateway.dfy` | dispatch, the per-player queue of cached packages, draining, the walk over the players awaiting a drain |
| `PickProtocol.dfy`, `PickItems.dfy`, `PickReplies.dfy`, `PickGrants.dfy`, `PickOutcomes.dfy`, `PickServer.dfy` | reserving an item, asking the database, the reply: the model, what holds of the maps in every run, which replies find their item, whom the database gives an item, the server |
| `Shuffle.dfy` | the in-place shuffle shared by the puzzle stages and the challenge AI |
| `Stage932.dfy`, `Stage934.dfy`, `Stage718.dfy`, `BitMask.dfy` | puzzle stage state machines |
| `ChallengeAi.dfy` | dealing AI roles by nested suffix shuffles |
| `SummonRouting.dfy`, `SummonOutcomes.dfy` | summon charges under iterate-and-erase |
| `SuitTable.dfy` | the seven-slot suit table and the suit bonuses |
| `Clothes.dfy`, `ClothesOutcomes.dfy` | the clothes layout and durability |
| `CommandLimiter.dfy` | the fixed-window command limiter |
| `Sequences.dfy`, `Words.dfy`, `PuzzleBoard.dfy` | shared: sequences, 32-bit arithmetic, the twelve places of a puzzle |

## What the proofs say about the code

* Who is given an item is decided by the database. A battle id is aliased when a
  new battle gets it while a database request that is still out carries it: a
  request of the battle's own player or, if others may join, of any player. As
  long as no id is aliased, no item is given away twice, and the server takes off
  its maps only what was given away; a request that timed out counts as given
  away, since it may have been (`PickGrants.EachItemIsGivenOnce`). Event by event
  the condition cannot be weakened: `GivesOnceIffUnaliased`. The first n battles
  of a server with n ids need no such condition (`EachItemIsGivenOnceAtFirst`).
  One battle later it is false: `PickGrants.SomeItemIsGivenTwice` is a run, for every n, in which no
  request times out and no reply misses an item, and yet the database accepts one
  item twice and the server takes another off its map for nobody.
* What the server keeps on its maps is in order in every run, stale replies and
  reused battle ids included: no item is taken off a map twice or lies on one
  after that, none is reserved by two players, and a free one by nobody
  (`PickItems.RunKeepsItems`). This says nothing about what the database accepted.
* A reply finds the item it asked for as long as no id is aliased, and not
  beyond. `PickReplies.StepKeepsInvIff` gives the condition event by event,
  `AliasedIdsLoseReplies` what happens without it, and `SafeUntilTheIdsComeRound`
  how long it holds on its own: until the ids that are free now are used up.
  `EveryServerGetsThere` and `SomeReplyIsLost` show that this bound is tight for
  every number of ids: one battle more, and a run exists in which a reply
  reaches the end iterator.
* A timed-out request (result 1017) leaves the item reserved while the player's
  command slot is free again (`PickReplies.ReplySettlesItsItem`); so does a proxy
  that is down (`PickReplies.PickReservesIff`). An item whose holder then picks
  something else, or leaves, can never be picked again
  (`PickItems.UnheldItemsStayTaken`). The database may still give it to the one
  who asked for it while that request is out, and may have if it timed out; when
  no request for it is out it is given to nobody from then on
  (`PickGrants.UnaskedItemsReachNobody`).
* A drain that ends in an error may leave a player linked with nothing queued,
  and the next drain then takes a package that is not there.
  `CommandQueue.RunCrashesIff` says exactly when a run does that,
  `SomeDrainTakesNothing` is a run of five events that does, and
  `DeletingTheFailedIsEnough` what rules it out.
* The walk over the awaiting players saves its next position before it drains
  the current one, and follows a dangling one exactly if a handler called in that
  turn deletes the player next in line (`AwaitingList.ScanDanglesIff`). A walk that
  comes to the end of the list has served everybody on it
  (`FinishedWalkServesEverybody`).
* A fresh package of an idle player runs ahead of packages that still wait in
  its queue: `CommandQueue.ArrivalDecides`.
* Hot join does not ask for the mode of the room it is sent to, and so takes
  players into PvP rooms: `Registry.HotJoinIgnoresTheMode` says exactly when, and
  `SomeHotJoinEntersPvp` is a run that does.
* A hot join that names no vacant room gets the open room of least id, and ends
  the player if that is a PvP room, even if PvE rooms wait behind it:
  `RoomOutcomes.HotJoinDecides`.
* Stage 932 is lost when the last wave is over, also with thirty right hits
  (`Stage932.TickDecides`), and under target 4 of its early waves the board is that
  of a red target (`WantedColourShowsTheFirstAmount`).
* Armor is hurt by one roll in a hundred more than its odds say, because they are
  tested the other way round than a weapon's: `ClothesOutcomes.ArmorIsHurtOnceMore`.
* Beyond the seventh suit nothing is counted, and which suits are counted depends
  on the order they are worn in: `SuitTable.FirstSevenSuitsCount`.
* The tick of stage 934 that declares the loss does not return and sets up one
  more round: `Stage934.TheLossSetsUpOneMoreRound`.
* A condition-count summon that carries an effect and a buff can apply one more
  time than it has charges: `SummonRouting.OverdraftByOneHappens`.
* Because the case of role code 4 falls through, the boss share of a challenge
  stage ends on the high AI with everybody who is neither low nor middle:
  `ChallengeAi.AisMatchConfiguration`.
* Any 61 seconds may admit nearly twice the configured number of calls: twice
  less one is the bound, because the call that opens a window counts in it
  (`CommandLimiter.AnySpanAdmitsLessThanTwiceTheLimit`), and every limit reaches
  it on every clock (`TwiceTheLimitLessOneIsReached`).

## Model

| member | source | states |
|---|---|---|
| IdPool.BattleIdList.constructor | gf/battle_svr/battle_manager.hpp:138-143 | the list starts as the ids 1 to 65533 in order |
| IdPool.BattleIdList.ProduceBattleId | gf/battle_svr/battle_manager.hpp:113-128 | takes the front id, or answers 0 and changes nothing when none is free |
| IdPool.BattleIdList.ReleaseBattleId | gf/battle_svr/battle_manager.hpp:130-134 | puts the id at the end |
| IdPool.IssuedInFreeOrder | gf/battle_svr/battle_manager.hpp:113-134 | the id at place k of the free list is exactly what creation k + 1 from now gets, and until then it stays in the list |
| IdPool.ReuseDistance | gf/battle_svr/battle_manager.hpp:113-134 | an id released while F others are free goes to none of the next F battles and exactly to battle F + 1, whatever else is released in between |
| Registry.CreateKeepsInv | gf/battle_svr/battle_impl.cpp:467-506 | a new battle keeps the partition of ids, both indexes, ownership, leadership and capacity |
| Registry.DelKeepsInv | gf/battle_svr/player.cpp:5357-5380 | ending any player keeps all of them and removes exactly that player |
| Registry.DelOneKeepsInv | gf/battle_svr/battle_impl.hpp:977-1065 | a departure from a shared room takes only that player off its list and lowers the limit |
| Registry.DelLastKeepsInv | gf/battle_svr/battle_impl.cpp:559-606 | a battle left empty is destroyed: its id is released and it leaves both indexes, and nobody else is touched |
| Registry.LeaveKeepsLeader | gf/battle_svr/battle_impl.cpp:1780-1798 | in a PvE team the first player left is the leader and the only one |
| Registry.AddKeepsInv | gf/battle_svr/battle_impl.hpp:899-930 | a join of a room with a vacancy keeps the invariant |
| Registry.RestartOrphansNobody | gf/battle_svr/player.cpp:2929-2952 | restart deletes a battle that held only its player; no other player and no other battle changes, and the player owns its new battle |
| Registry.StepKeepsInv | gf/battle_svr/battle.cpp:549-577 | every command (solo, create, join, hot join, PvP entry, restart, kick, leave, start, hot-join flag, closed connection) keeps the invariant |
| Registry.RunKeepsInv | gf/battle_svr/battle_manager.hpp:37-151 | so does every run: free and live ids partition 1 to 65533, composite_battle is the live battles, the buckets split it by stage and difficulty, ownership goes both ways, no battle is empty |
| Registry.StartSatisfiesInv | gf/battle_svr/battle_manager.hpp:136-149 | the empty server satisfies the invariant |
| Registry.RoomIdRoundTrip | gf/battle_svr/battle_impl.hpp:396-401 | the low half of a global room id is the battle id it was made from, for every 32-bit server id |
| Registry.RoomIdFindsItsRoom | gf/battle_svr/battle_manager.hpp:63-78 | looking a team room up by the masked global room id finds that room |
| Registry.LeaderHintNamesTheLeader | gf/battle_svr/battle.cpp:993-995 | the first player equals the expected leader exactly if that player sits there and is leader, and no room has two |
| Registry.JoinEntersIff | gf/battle_svr/battle.cpp:983-1014 | exactly which joins succeed, which end the caller and which leave it without a battle |
| Registry.HotJoinIgnoresTheMode | gf/battle_svr/battle.cpp:1019-1074 | a hot join ends in a PvP room exactly if the room id it sent names one that waits with a vacancy |
| RoomOutcomes.LeaveDecides | gf/battle_svr/battle_impl.hpp:977-1065 | a departure alone takes the battle along and its id goes to the end of the list; otherwise the room goes on with the others in their order, room for one less, and a PvE room's next player leading if the leader left |
| RoomOutcomes.SeatDecides | gf/battle_svr/cli_proto.cpp:200-205 | a battle-starting command ends the previous incarnation like a departure and seats a new one without a battle |
| RoomOutcomes.CreationDecides | gf/battle_svr/battle.cpp:628-655 | solo and team creation: who ends, who stays without a battle, and every field of the battle that opens under the front id |
| RoomOutcomes.JoinDecides | gf/battle_svr/battle.cpp:983-1014 | exactly which room a join enters, as the last in its list; a full one leaves the player without a battle and any other refusal ends it |
| RoomOutcomes.HotJoinDecides | gf/battle_svr/battle.cpp:1019-1074 | the named room if it is vacant, else the room of least id in the whole registry that is vacant, open to hot joins and of the stage, if that is a PvE room; otherwise the player ends |
| RoomOutcomes.PvpDecides | gf/battle_svr/battle.cpp:350-431 | a named room of another mode ends the player, a vacant one takes it in and grows, and otherwise it opens a room of its own unless it was invited to one |
| RoomOutcomes.RoomCommandsDecide | gf/battle_svr/battle.cpp:1107-1145 | a kick ends the victim wherever it is if the caller's room waits to start; a start and the hot-join flag change one field of that room |
| RoomOutcomes.RestartDecides | gf/battle_svr/battle.cpp:549-577 | which restarts run, and the battle on the new or the same stage that they open |
| Registry.SomeHotJoinEntersPvp | gf/battle_svr/battle.cpp:1051-1073 | a run of two commands from the empty server in which it happens, for every server id |
| Registry.AtMostOneJoinPerSeat | gf/battle_svr/battle_impl.hpp:562-568 | a PvE team room for n players is never overfull, admits at most n - 1 joins in its life, and is full once it did |
| Registry.VacanciesNeverIncrease | gf/battle_svr/battle_impl.hpp:983-989 | in every run, while a PvE team room lives, vacancies lost are exactly joins that succeeded, so vacancies never increase |
| Registry.RandomBattleIsTheFirstOpen | gf/battle_svr/battle_manager.hpp:98-111 | the random room is the open room of least id in its bucket, and none is answered only if there is none |
| Registry.HistoriesGrowOverRuns | gf/battle_svr/battle_manager.hpp:113-134 | over every run the ids handed out and given back only grow |
| Registry.DeadIdStaysDead | gf/battle_svr/battle_manager.hpp:113-134 | in every run an id with k free ids ahead of it names no battle and no player's battle until k more battles were created, and the next battle gets it |
| Registry.ClosingEndsExactlyItsPlayers | gf/battle_svr/player.cpp:5400-5422 | closing a connection ends exactly its players in whatever order they are visited; the battles that survive are exactly those that still hold somebody, with the others in their order |
| BattleServer.Server.NewBattle | gf/battle_svr/battle_impl.cpp:467-506 | creates and registers the battle, whole new state |
| BattleServer.Server.DeleteBattle | gf/battle_svr/battle_impl.cpp:559-606 | releases and unregisters it, whole new state |
| BattleServer.Server.LeaveBattle | gf/battle_svr/battle_impl.hpp:977-1065 | list, limit and leader after a departure |
| BattleServer.Server.DelPlayer | gf/battle_svr/player.cpp:5357-5380 | whole new state after a player ended |
| BattleServer.Server.GetBattle | gf/battle_svr/battle_manager.hpp:63-78 | finds a team battle by id |
| BattleServer.Server.GetRadomBattle | gf/battle_svr/battle_manager.hpp:98-111 | the scan returns the first open room of the bucket |
| BattleServer.Server.PveBattle | gf/battle_svr/battle.cpp:628-655 | solo battle command |
| BattleServer.Server.CreateBattleTeam | gf/battle_svr/battle.cpp:920-955 | team creation command |
| BattleServer.Server.JoinBattleTeam | gf/battle_svr/battle.cpp:983-1014 | join command |
| BattleServer.Server.HotJoinBattleTeam | gf/battle_svr/battle.cpp:1019-1074 | hot-join command with its fallback to a random room |
| BattleServer.Server.PvpBattle | gf/battle_svr/battle.cpp:350-431 | PvP entry: enter the named room or open one |
| BattleServer.Server.PlayerBtlRestart | gf/battle_svr/battle.cpp:549-577 | restart command |
| BattleServer.Server.KickUserFromRoom | gf/battle_svr/battle.cpp:1125-1145 | kick command |
| BattleServer.Server.ClearPlayers | gf/battle_svr/player.cpp:5400-5422 | the loop over all players, erasing while iterating |
| CommandQueue.DispatchKeepsInv | gf/battle_svr/cli_proto.cpp:168-241 | every branch of dispatch that does not queue a package settles it once and keeps every earlier fate |
| CommandQueue.ArriveKeepsInv | gf/battle_svr/cli_proto.cpp:215-231 | an arrival keeps the ledger and the queues |
| CommandQueue.ArrivalDecides | gf/battle_svr/cli_proto.cpp:215-241 | a package runs at once exactly if no command is in flight, goes behind at most 49 others, or is turned away at 50 |
| CommandQueue.OneTurn | gf/battle_svr/cli_proto.cpp:322-345 | one turn of the inner loop takes the head of the queue, keeps the incarnation and every settled fate, and leaves the invariant ready for each way the turn can end |
| CommandQueue.DrainedPlayerStays | gf/battle_svr/cli_proto.cpp:190-213 | a package that starts no battle leaves the same incarnation of the player or none, and touches nobody but the players its handler deletes |
| CommandQueue.DrainKeepsInv | gf/battle_svr/cli_proto.cpp:317-347 | a drain keeps the invariant, and a player is linked with an empty queue only after an error |
| CommandQueue.DrainIsInOrder | gf/battle_svr/cli_proto.cpp:317-347 | a drain hands packages out from the front, in the order of arrival, to the incarnation that queued them, and queues nothing |
| CommandQueue.DrainGoesAsFarAsItCan | gf/battle_svr/cli_proto.cpp:317-347 | it ends with the player gone, busy, failed, or drained and unlinked |
| CommandQueue.DrainCrashesIff | gf/battle_svr/cli_proto.cpp:322-325 | a drain takes a package from an empty queue exactly if it starts on an idle, linked player with nothing queued, which an earlier error left behind |
| CommandQueue.RunCrashesIff | gf/battle_svr/cli_proto.cpp:317-347 | a run does so exactly if some drain of it starts on such a player |
| CommandQueue.DeletingTheFailedIsEnough | gf/battle_svr/cli_proto.cpp:340-343 | no run does in which every player whose drain failed is deleted before its next drain |
| CommandQueue.SomeDrainTakesNothing | gf/battle_svr/cli_proto.cpp:317-347 | a run of five events from the empty server that does |
| QueueOutcomes.ArriveDecides | gf/battle_svr/cli_proto.cpp:168-241 | what becomes of every package that arrives: unknown ones rejected, battle-starting ones run by a new incarnation, foreign battle ids refused without a change, others run, queued as the last of at most fifty or turned away; and what running one does to every player |
| QueueOutcomes.TurnDecides | gf/battle_svr/cli_proto.cpp:322-331 | what becomes of a package that a drain takes: refused if its player sits elsewhere by now, run otherwise |
| QueueOutcomes.DrainStopsAtTheFirstError | gf/battle_svr/cli_proto.cpp:331-345 | every package a drain took before its last was fine, and the player counts as failed exactly if the last was not |
| CommandQueue.StepKeepsInv | gf/battle_svr/cli_proto.cpp:168-241 | arrivals, completions, drains and deletions keep the invariant and every settled fate |
| CommandQueue.RunKeepsTheLedger | gf/battle_svr/cli_proto.cpp:190-373 | in every run each package that arrived is settled once and for all or waits in exactly one queue, never both; the handled ones are exactly those a handler was called on, each called once; at most 50 wait per player |
| Gateway.Server.DispatchPkg | gf/battle_svr/cli_proto.cpp:168-241 | whole new state and result of dispatch |
| Gateway.Server.CacheAPkg | gf/battle_svr/cli_proto.cpp:352-364 | appends the package and links the player |
| Gateway.Server.DrainPlayer | gf/battle_svr/cli_proto.cpp:322-345 | computes the drain and keeps the invariant, and reports the pop from an empty queue exactly when it happens |
| Gateway.Server.DrainQueue | gf/battle_svr/cli_proto.cpp:322-345 | the inner loop ends and computes the drain |
| Gateway.Server.ProcCachedPkgs | gf/battle_svr/cli_proto.cpp:317-347 | the walk over the awaiting players with its saved position, and whether it came to the end, stepped to a player that is gone or took a missing package |
| AwaitingList.SavedPositionStaysGoodIff | gf/battle_svr/cli_proto.cpp:319-321 | the saved position stays good exactly if no handler called in this turn deletes the next player, who then waits unchanged |
| AwaitingList.ScanDanglesIff | gf/battle_svr/cli_proto.cpp:317-347 | the walk keeps the invariant of all queues and steps to a dangling position exactly if some turn it comes to deletes the player next in line |
| AwaitingList.FinishedWalkServesEverybody | gf/battle_svr/cli_proto.cpp:317-347 | a walk that comes to the end of its list leaves every listed player gone, busy, failed, or drained and off the list, and met none that was idle with nothing queued |
| AwaitingList.MissingOnlyIfThereFromTheStart | gf/battle_svr/cli_proto.cpp:322-325 | a walk takes a missing package only at a listed player that an earlier error had left idle with nothing queued before the walk began |
| PickReplies.PickReservesIff | gf/battle_svr/player.cpp:1097-1179 | exactly which picks reserve, which send a request and which leave the command slot taken; nothing else changes |
| PickReplies.ReplyFindsItsItem | gf/battle_svr/dbproxy.cpp:111-122 | a reply that reaches a player reaches the incarnation that asked, whose reserved item is still on its map and was never taken off one |
| PickReplies.ReplySettlesItsItem | gf/battle_svr/player.cpp:5599-5677 | the three outcomes: off the map for the player that asked, back on the map, or still reserved after a timeout; nothing else changes |
| PickOutcomes.PickDecides | gf/battle_svr/player.cpp:1097-1179 | whole new state of every pick: only an idle player of the battle it names may pick, and only a free item within reach on its map |
| PickOutcomes.ReplyDecides | gf/battle_svr/dbproxy.cpp:111-154 | whole new state of every reply: a body as declared, or none with an error code, reaches the handler and settles the item; any other, or a sender that left, only takes the request off the list |
| PickOutcomes.LeaveDecides | gf/battle_svr/player.cpp:5357-5380 | a departure takes battle and drops along, and gives back the id, exactly if nobody else sits there |
| PickOutcomes.CreateDecides | gf/battle_svr/battle_impl.cpp:482-506 | a new battle gets the front id, and the player, who holds nothing, none if there is none |
| PickOutcomes.JoinDecides | gf/battle_svr/battle.cpp:983-1014 | a join enters an unstarted team battle, stays without one if that is full, and otherwise ends the player |
| PickOutcomes.RestartDecides | gf/battle_svr/player.cpp:2929-2963 | only an idle player of a solo battle restarts; battle and drops end and it gets the front id |
| PickOutcomes.CommandsDecide | gf/battle_svr/cli_proto.cpp:206-241 | which other commands run, and what each changes |
| PickItems.LeavingTouchesNobodyElse | gf/battle_svr/player.cpp:5357-5380 | a departure ends the battle and its drops exactly if nobody is left in it |
| PickItems.StepKeepsItems | gf/battle_svr/player.cpp:1097-1179 | every event keeps what holds of the items, whatever ids are reused |
| PickItems.RunKeepsItems | gf/battle_svr/player.cpp:5599-5677 | in every run whatever no item is taken off a map twice or lies on one after that, an item is reserved by at most one player and a free one by nobody |
| PickItems.UnheldItemsStayTaken | gf/battle_svr/player.cpp:1122-1130 | an item that is not free and that nobody holds is never freed, reserved or taken off its map for a player again in any run |
| PickItems.WaysToStrand | gf/battle_svr/player.cpp:5607-5610 | items get there when their holder leaves, or reserves something else |
| PickReplies.PickKeepsInv | gf/battle_svr/player.cpp:1097-1179 | a pick with every network outcome keeps the invariant |
| PickReplies.CallbackKeepsInv | gf/battle_svr/player.cpp:5599-5677 | so does the callback with every result |
| PickReplies.ReplyKeepsInv | gf/battle_svr/dbproxy.cpp:111-154 | so does every reply, matched or stale, well formed or not |
| PickReplies.JoinKeepsInv | gf/battle_svr/battle.cpp:983-1014 | so does joining an unstarted team battle |
| PickReplies.OpenIff | gf/battle_svr/battle_impl.cpp:482-506 | a new battle keeps the invariant exactly if no outstanding request of its player, or of anybody if others may join, carries its id |
| PickReplies.StepKeepsInvIff | gf/battle_svr/cli_proto.cpp:190-241 | every event keeps the invariant exactly if it aliases no id |
| PickReplies.NoReplyMissesItsItem | gf/battle_svr/player.cpp:5604-5614 | in every run without aliasing every look-up of the callback succeeds |
| PickReplies.InitSatisfiesInv | gf/battle_svr/battle_manager.hpp:136-149 | the empty server satisfies the invariant, with no request carrying any of its ids |
| PickReplies.SafeUntilTheIdsComeRound | gf/battle_svr/battle_manager.hpp:113-134 | if no outstanding request carries one of the next m ids, every run that creates at most m battles is safe |
| PickReplies.AliasedIdsLoseReplies | gf/battle_svr/dbproxy.cpp:117-122 | after an event that aliases an id, one or two more events reach the end iterator |
| PickReplies.EveryServerGetsThere | gf/battle_svr/cli_proto.cpp:200-205 | for every number of ids n, some run of n battles is safe throughout and then the next battle aliases an id |
| PickReplies.SomeReplyIsLost | gf/battle_svr/player.cpp:5604-5614 | for every n some run of n + 1 battles reaches the end iterator |
| PickGrants.StepKeepsGrants | gf/battle_svr/player.cpp:5599-5677 | every event keeps requests and database in step: no item is out in two requests or in one after it was given away, neither kind is free on a map, and only what was given away is taken off one |
| PickGrants.EachItemIsGivenOnce | gf/battle_svr/player.cpp:5613-5638 | in every run without aliasing the database accepts each item at most once, timeouts counted as accepted, no request still out carries an accepted item or one that another request carries, and the server takes off its maps only accepted items |
| PickGrants.EachItemIsGivenOnceAtFirst | gf/battle_svr/battle_manager.hpp:113-134 | so it is in every run of at most n battles on a server with n ids |
| PickGrants.UnaskedItemsReachNobody | gf/battle_svr/player.cpp:1122-1179 | an unheld item that is not free and that no request is out for is accepted for nobody in any run from then on |
| PickGrants.AliasedIdsGiveTwice | gf/battle_svr/dbproxy.cpp:111-122 | after every event that aliases an id, some run without a creation, a timeout or a missed item has one item accepted twice and another taken off its map that was never accepted |
| PickGrants.GivesOnceIffUnaliased | gf/battle_svr/cli_proto.cpp:190-241 | in every state reached without aliasing, an event leaves the database unable to accept an item twice before the next battle is created exactly if it aliases no id |
| PickGrants.SomeItemIsGivenTwice | gf/battle_svr/dbproxy.cpp:111-122 | for every n some run of n + 1 battles without timeouts and without a missed item has one item accepted twice and another taken off its map that was never accepted |
| PickServer.Server.DelPlayer | gf/battle_svr/player.cpp:5357-5380 | whole new state |
| PickServer.Server.CreateBattle | gf/battle_svr/battle_impl.cpp:482-506 | whole new state |
| PickServer.Server.JoinBattle | gf/battle_svr/battle.cpp:983-1014 | whole new state |
| PickServer.Server.RestartBattle | gf/battle_svr/player.cpp:2929-2963 | whole new state |
| PickServer.Server.PickItem | gf/battle_svr/player.cpp:1097-1179 | whole new state |
| PickServer.Server.PickItemCallback | gf/battle_svr/player.cpp:5599-5677 | whole new state, with a failed look-up recorded where the source goes on with the end iterator |
| PickServer.Server.HandleDbReturn | gf/battle_svr/dbproxy.cpp:111-154 | whole new state for every reply, and the invariant is kept, so that under it the callback's look-up succeeds |
| Shuffle.RanPos | gf/battle_svr/battle_logic.cpp:828-838 | the loop leaves the array with exactly the slice shuffled, whatever the draws |
| Shuffle.SwapsShuffleTheSlice | gf/battle_svr/battle_logic.cpp:828-838 | running the swaps on the whole array is shuffling the slice by itself |
| Shuffle.ShuffledIsPermutation | gf/battle_svr/monster.cpp:2177-2187 | a shuffle is a permutation for every random outcome |
| Shuffle.ShuffledPartPermutesItsSlice | gf/battle_svr/battle_logic.cpp:828-838 | a partial shuffle permutes its slice and leaves every other cell alone |
| Shuffle.EveryArrangementIsDrawn | gf/battle_svr/battle_logic.cpp:828-838 | every arrangement is the outcome of some draws, each within range |
| Stage932.GatherAlongPermutation | gf/battle_svr/battle_logic.cpp:1033-1060 | reading a board along two orders of the same cells meets the same colours |
| Stage932.PaintColours | gf/battle_svr/battle_logic.cpp:1044-1060 | painting gives each distinct position its own colour |
| Stage932.BoardHasThePalette | gf/battle_svr/battle_logic.cpp:1001-1106 | a board holds exactly the drawn colours, blanks included |
| Stage932.BoardIsExactAndWinnable | gf/battle_svr/battle_logic.cpp:828-1106 | for every random outcome each colour appears exactly as often as drawn, at least three of twelve cells are blank, and some cell has the colour 1 + target / 3 |
| Stage932.StepKeepsInv | gf/battle_svr/battle_logic.cpp:953-1153 | every tick and every hit keeps the counters in step |
| Stage932.RunKeepsInv | gf/battle_svr/battle_logic.cpp:953-1153 | in every run correct plus wrong hits stay within the waves, waves within 40, correct hits within 30, wrong ones within 3; the base-100 packing is exact; no exit before 30 correct hits |
| Stage932.OneHitPerWave | gf/battle_svr/battle_logic.cpp:1115-1153 | at most one hit counts while no new wave is shown |
| Stage932.HitAnswersByColour | gf/battle_svr/battle_logic.cpp:1115-1153 | a hit is answered 1 exactly on the colour 1 + target / 3, 3 on any other, and 0 once the wave's hit is spent |
| Stage932.ScoreIsTheHits | gf/battle_svr/battle_logic.cpp:1115-1153 | in every run the score is the hits on the colour asked for plus 100 times the hits on another |
| Stage932.TickDecides | gf/battle_svr/battle_logic.cpp:967-1000 | three wrong hits lose, and so does the end of the last wave even with thirty right ones; thirty right ones call the exit once; else the next wave comes when it is due |
| Stage932.HitBringsTheNextWave | gf/battle_svr/battle_logic.cpp:1150-1151 | after a counted hit the next wave is shown by the first tick more than a second later |
| Stage932.FirstRates | gf/battle_svr/battle_logic.cpp:840-928 | how many of a hundred rolls give which number of cells of the first amount, for each stretch of waves |
| Stage932.SecondRates | gf/battle_svr/battle_logic.cpp:840-928 | the same for the second amount |
| Stage932.ThirdRates | gf/battle_svr/battle_logic.cpp:881-940 | a third amount from wave 20 on, distributed like the second |
| Stage932.WantedColourShowsTheFirstAmount | gf/battle_svr/battle_logic.cpp:1006-1060 | the colour asked for has as many cells as the first amount, the next colours the others, except under target 4 of the early waves, whose board is that of a red target |
| Stage932.AnyBoardCanBeShown | gf/battle_svr/battle_logic.cpp:1029-1080 | every placement of a wave's colours on the twelve cells is the outcome of some draws |
| Stage932.PuzzleStage.ShufflePositions | gf/battle_svr/battle_logic.cpp:1029-1080 | the two or three in-place shuffles give the order of positions |
| Stage932.PuzzleStage.PaintBoard | gf/battle_svr/battle_logic.cpp:1047-1060 | the painting loop |
| Stage932.PuzzleStage.NextWave | gf/battle_svr/battle_logic.cpp:1001-1106 | target and board of the next wave |
| Stage932.PuzzleStage.Process | gf/battle_svr/battle_logic.cpp:953-1113 | whole new state after a tick |
| Stage932.PuzzleStage.HitMechanism | gf/battle_svr/battle_logic.cpp:1115-1153 | whole new state and answer of a hit |
| Stage934.LitIsExact | gf/battle_svr/battle_logic.cpp:1316-1337 | the mask of a new round has exactly three to six bits, for every shuffle |
| Stage934.LightGoesOut | gf/battle_svr/battle_logic.cpp:1163-1171 | hitting a lit mechanism clears one bit and lowers the population by one |
| Stage934.StepKeepsInv | gf/battle_svr/battle_logic.cpp:1155-1343 | every tick and every hit keeps the counters in step |
| Stage934.RunKeepsInv | gf/battle_svr/battle_logic.cpp:1155-1343 | in every run a round runs exactly while the mask is nonzero, the light counter is then its population, results and the running round add up to the rounds, at most 15, and the packing is exact |
| Stage934.ResultsUnpack | gf/battle_svr/battle_logic.cpp:1301-1305 | the two results are read back exactly from their packed form |
| Stage934.OutOfRoundsIsAlreadyLost | gf/battle_svr/battle_logic.cpp:1305-1343 | when all rounds are used without ten successes at least six failed |
| Stage934.TheLossSetsUpOneMoreRound | gf/battle_svr/battle_logic.cpp:1305-1337 | the tick that declares the loss is exactly the one after six failures, and it still starts a round unless all are used |
| Stage934.NothingStartsAfterTheLoss | gf/battle_svr/battle_logic.cpp:1305-1343 | after the loss no round starts; once the last one is played nothing changes |
| Stage934.HitDecides | gf/battle_svr/battle_logic.cpp:1155-1182 | the last light put out counts as a success, a dark mechanism touched as a failure, any other light just goes out and no other with it; and the answer of each |
| Stage934.ResultsAreTheHits | gf/battle_svr/battle_logic.cpp:1155-1182 | in every run the packed results are the last lights put out plus 100 times the dark mechanisms touched |
| Stage934.TickDecides | gf/battle_svr/battle_logic.cpp:1271-1340 | exactly when a tick starts a round, with how many lights, when it declares the loss, and how long it waits between rounds |
| Stage934.AnyCellsCanBeLit | gf/battle_svr/battle_logic.cpp:1316-1337 | for every arrangement of the twelve mechanisms some draws light exactly the first three to six of it |
| Stage934.AtMostTenSucceedAndSevenFail | gf/battle_svr/battle_logic.cpp:1155-1343 | in every run at most ten rounds succeed and at most seven fail, the seventh only after the loss |
| Stage934.PuzzleStage.LightRound | gf/battle_svr/battle_logic.cpp:1316-1337 | the shuffle and the mask loop |
| Stage934.PuzzleStage.Process | gf/battle_svr/battle_logic.cpp:1247-1343 | whole new state after a tick |
| Stage934.PuzzleStage.HitMechanism | gf/battle_svr/battle_logic.cpp:1155-1182 | whole new state and answer of a hit |
| BitMask.SetOnEffect | mole/gamesvr/ant/bitmanip/bitmanip.h:102-106 | setting a bit touches no other bit and adds one to the population exactly if it was clear |
| BitMask.SetOffEffect | gf/battle_svr/battle_logic.cpp:1165 | clearing a bit touches no other bit and takes one from the population exactly if it was set |
| Stage718.SectionsComeInOrder | gf/battle_svr/battle_logic.cpp:2689-2805 | in every run the called sections are 1, 2, 3, ... without skip or repeat, and victory means all fifty were called and one monster is left |
| Stage718.VictoryMeetsEveryBossOnce | gf/battle_svr/battle_logic.cpp:2689-2700 | a victorious run called each of the ten bosses once, in order |
| Stage718.TickDecides | gf/battle_svr/battle_logic.cpp:2739-2805 | exactly which ticks start a section, end it, win or lose, and when the clock is read |
| Stage718.LostIffTheLampDied | gf/battle_svr/battle_logic.cpp:2745-2754 | a run is lost exactly if some tick saw the lamp dead before the victory |
| Stage718.VictoryStaysPossible | gf/battle_svr/battle_logic.cpp:2739-2805 | from every state that is not over some ticks lead to victory: the stage never gets stuck |
| Stage718.PuzzleStage.ProcessTick | gf/battle_svr/battle_logic.cpp:2739-2805 | whole new state after a tick |
| Stage718.PuzzleStage.CallLampMonster | gf/battle_svr/battle_logic.cpp:2689-2704 | ignores sections outside 1 to 50 |
| ChallengeAi.RolesMatchConfiguration | gf/battle_svr/monster.cpp:2199-2272 | over all maps every role is dealt exactly as often as configured |
| ChallengeAi.RolesArePercentages | gf/battle_svr/monster.cpp:2199-2231 | each role is dealt to the whole part of its percentage of the monsters |
| ChallengeAi.RolesDecide | gf/battle_svr/monster.cpp:2243-2259 | which AI a role leaves behind: 1 low, 2 middle, every other one high, and none for a fixed monster |
| ChallengeAi.DealIsSubPermutation | gf/battle_svr/monster.cpp:2232-2268 | what is dealt is part of the pool, for any number of maps |
| ChallengeAi.PercentagesFit | gf/battle_svr/monster.cpp:2199-2231 | percentages that sum to at most 100 never assign more roles than monsters |
| ChallengeAi.GivenAgainstDealt | gf/battle_svr/monster.cpp:2243-2265 | low and middle monsters differ from the low and middle roles dealt by at most the monsters that keep their own AI, and all others with a role end on the high AI |
| ChallengeAi.AisMatchConfiguration | gf/battle_svr/monster.cpp:2190-2272 | for every draw the low and middle shares come out as configured, exactly with no monster fixed and otherwise short by at most the fixed ones, and everybody else ends on the high AI, never on the boss AI |
| ChallengeAi.FillRoles | gf/battle_svr/monster.cpp:2199-2231 | the four filling loops |
| ChallengeAi.DealMap | gf/battle_svr/monster.cpp:2232-2268 | one map takes the first cells of the shuffled rest; cells dealt before and cells behind the monster count stay as they were |
| ChallengeAi.DealMaps | gf/battle_svr/monster.cpp:2227-2272 | the loop over the maps deals what the specification deals, and in the end the array still starts with every role as it was dealt, so later shuffles disturbed none of them |
| ChallengeAi.UpdateChallengeAi | gf/battle_svr/monster.cpp:2199-2272 | the whole dealing, map after map |
| SummonRouting.Battle.TriggerSummon | gf/battle_svr/battle_impl.cpp:2302-2366 | one summon's turn, with the deletion test before each target |
| SummonRouting.Battle.MapSummonRouting | gf/battle_svr/battle_impl.cpp:2299-2368 | the pass ends, visits every summon once in order, and keeps exactly those not erased by their own visit |
| SummonRouting.SurvivorsAreExactlyTheKept | gf/battle_svr/battle_impl.cpp:2299-2368 | a summon is listed afterwards exactly if its own visit kept it, with the state that visit left |
| SummonRouting.PassKeepsCharges | gf/battle_svr/battle_impl.cpp:2299-2368 | a pass keeps every listed summon's charge account |
| SummonOutcomes.VisitDecides | gf/battle_svr/battle_impl.cpp:2299-2368 | how often a visit hands out effect and buff, to which targets, when it erases the summon and what that costs, for every kind |
| SummonRouting.ConditionSummonSpendsItsCharges | gf/battle_svr/map_summon_object.cpp:154-215 | a condition-count summon with n charges applies at most n times in its life, n + 1 if it carries an effect and a buff |
| SummonRouting.OverdraftByOneHappens | gf/battle_svr/map_summon_object.cpp:180-215 | for every n > 0 the extra application happens |
| SummonRouting.PassSummonActsInAtMostNPasses | gf/battle_svr/battle_impl.cpp:2352-2360 | a pass-count summon with n charges acts in at most n passes |
| SummonRouting.EverySummonStaysWithinItsCharges | gf/battle_svr/battle_impl.cpp:2223-2368 | over every sequence of creations and passes each summon listed or erased stays within its charges, and taken as they were created these are exactly the summons created, none lost, doubled or changed |
| SuitTable.AddPiece | gf/battle_svr/player_attribute.cpp:538-550 | first fit: the suit's slot, else the first unused one, else none |
| SuitTable.AddPieceInline | gf/battle_svr/player_attribute.cpp:260-272 | the older search with its tests in the other order does the same |
| SuitTable.GetPlayerSuitInfo | gf/battle_svr/player_attribute.cpp:529-552 | the table of the worn suits |
| SuitTable.GroupInline | gf/battle_svr/player_attribute.cpp:251-273 | the older grouping fills the same table |
| SuitTable.CalcPlayerSuitAttr | gf/battle_svr/player_attribute.cpp:554-594 | the bonus loops add up the configured steps of every used slot |
| SuitTable.TableIsHistogramIffSevenSuits | gf/battle_svr/player_attribute.cpp:529-552 | the table is the exact histogram, used slots a prefix of different suits, if and only if at most seven suits are worn |
| SuitTable.FirstSevenSuitsCount | gf/battle_svr/player_attribute.cpp:529-552 | however many suits are worn, the first seven in wearing order are counted exactly and any later one not at all |
| SuitTable.SuitsOfParts | gf/battle_svr/player_attribute.cpp:529-540 | the clothes are read in order, piece by piece |
| SuitTable.SuitsOfOne | gf/battle_svr/player_attribute.cpp:531-537 | unknown items and pieces of no suit count for nothing |
| SuitTable.TableBonusIsHistogramBonus | gf/battle_svr/player_attribute.cpp:554-594 | the bonus of the table is the bonus of the histogram |
| SuitTable.TableBonusIsPieceByPiece | gf/battle_svr/player_attribute.cpp:554-594 | the bonus is what the pieces add one by one: the n-th of a suit the bonus of step n, if that step is configured |
| SuitTable.BonusIsOrderIndependent | gf/battle_svr/player_attribute.cpp:529-594 | integer bonuses do not depend on the order of the clothes |
| Clothes.ClothesInfo.Init | gf/battle_svr/item.cpp:443-529 | the four passes lay out the sections one after the other, with the counts their sizes |
| Clothes.ClothesInfo.FillWeapon | gf/battle_svr/item.cpp:458-471 | the first pass takes the first weapon and stops |
| Clothes.ClothesInfo.FillSection | gf/battle_svr/item.cpp:474-518 | a later pass takes its section from what is left, in order |
| Clothes.ClothesInfo.DurationChange | gf/battle_svr/item.cpp:534-637 | whole new contents after a loss |
| Clothes.InitIsAPartition | gf/battle_svr/item.cpp:443-529 | the layout is a permutation of the input, and the counts are exact section boundaries with at most one weapon |
| ClothesOutcomes.SectionsFollowTheParts | gf/battle_svr/item.cpp:443-529 | the first weapon, then all armor, then all jewelry in the order of the input, told by the part a piece is worn at |
| ClothesOutcomes.InitialDurations | gf/battle_svr/item.cpp:443-529 | fifty times the item's durability in 16 bits as the initial durability, and none behind the jewelry |
| ClothesOutcomes.DamageDecides | gf/battle_svr/item.cpp:534-637 | which loss hurts which piece, on which rolls, and how much it takes |
| ClothesOutcomes.ArmorIsHurtOnceMore | gf/battle_svr/item.cpp:604-632 | of a hundred rolls a weapon is hurt by as many as its odds, a piece of armor by one more |
| ClothesOutcomes.BlowsAddUp | gf/battle_svr/item.cpp:534-637 | over any series of losses a piece loses exactly what those that hurt it take |
| Clothes.BlowsKeepLayout | gf/battle_svr/item.cpp:534-637 | however many losses hit: only their sections change, no durability rises, boundaries stay exact |
| CommandLimiter.Limiter.AddCount | dbser/Ccmdmap_private_checklen.h:38-51 | whole new state and verdict of a call |
| CommandLimiter.WindowAdmitsAtMostLimit | dbser/Ccmdmap_private_checklen.h:38-51 | within a window at most what is left of the limit is admitted |
| CommandLimiter.NoLimitAdmitsEverything | dbser/Ccmdmap_private_checklen.h:39 | a limit of zero, the default of a command, admits every call |
| CommandLimiter.AnySpanAdmitsLessThanTwiceTheLimit | dbser/Ccmdmap_private_checklen.h:38-51 | any 61-second span of any run in which every window used was opened by a call admits at most twice the limit less one |
| CommandLimiter.FreshCommandAdmitsLessThanTwiceTheLimit | dbser/Cfunc_route_cmd.h:38-45 | so it is for every command from its table entry on, on any clock past its first minute |
| CommandLimiter.AnySpanAdmitsAtMostTwiceTheLimit | dbser/Ccmdmap_private_checklen.h:38-51 | from whatever contents of the fields any 61-second span admits at most twice the limit |
| CommandLimiter.TwiceTheLimitLessOneIsReached | dbser/Ccmdmap_private_checklen.h:38-51 | for every limit and every clock past its first minute, a call, a burst in the last second of its window and a burst one second later admit twice the limit less one in 61 seconds |

## Left out

- Battles and players as heap objects: a battle is a record under its id and a player a record under its user id, so aliasing of pointers is modelled by ids; within one incarnation the two agree.
- Watchers, the waiting list of level matching and its timers, rolls, and the online server's registry of rooms.
- The ready counters and when a started battle begins: `ready_num_` is not lowered when a ready player leaves, so no claim is made about it.
- Picking and queueing are two models: a pick runs exactly when `Runs` holds, which is the condition under which `CommandQueue.ArrivalDecides` and a drain execute a command. A handler is taken to change no other player's command slot.
- Probe and version requests, which are answered without a player; the closing of connections after an error, which arrives later as a deletion.
- The wrap-around of 32-bit object ids that number the drops.
- A tmp-team PvP room's start on becoming full, and the levels and scores of PvP.
- get_stage and the level test are parameters (`StageRef`, `lvOk`); `Registry.NewRoom` takes the limit a room has after its creating command.
- A kick of oneself answers through the deleted player; the model only deletes the player.
- ChallengeAi.UpdateChallengeAi: requires that the roles fit the monster count, that the count fits the 200 cells and that the maps hold no more monsters than counted; the source checks none of them and would write past its array.
- SuitTable.CalcPlayerSuitAttr: requires suits up to 500 and at most seven pieces of each, the extent of the configuration table; the source does not check.
- calc_player_attr_by_suit's float rates, and the skill additions, where a later step overwrites an earlier one.
- Stage934.RunKeepsInv: the clock is a Unix time above 20, because one field holds either a small counter or a clock reading; the shield of monster 19145 is not modelled.
- Stage932.RunKeepsInv: hits only on mechanisms of the current wave.
- duration_state_chg_noti and every other message to clients.
- CommandLimiter.AnySpanAdmitsLessThanTwiceTheLimit: assumes a limit that stays as configured (set_cmd_max_limit_per_minute may change it), a clock that never goes backwards and stays 60 seconds below 2^32, and fewer than 2^32 calls in any 61 seconds, because the counter has 32 bits.
- CommandLimiter.AnySpanAdmitsAtMostTwiceTheLimit: under the same assumptions.
- Movement, collision, damage, experience, path finding, skills, AI states, loaders, logging, statistics, sockets and the other stage scripts.
