/** Every service call from outside: when it succeeds, what it then leaves in the stores, and
    which refusal it gives otherwise, in terms of rooms, seats and recorded weeks. */
module Outcomes {
  import opened Common
  import opened Scenarios
  import opened Chain
  import opened ChainLaws
  import opened Rooms
  import opened RoomLaws
  import opened WeekDecisions
  import opened Worlds
  import opened WorldLaws
  import opened Failures
  import opened Agreement
  import T = Traces

  // ---------- Which week is on ----------

  /** The week to be played is the one after those recorded, until the last one was played. */
  lemma PlayableWeekIs(s: Session)
    requires Kept(s)
    ensures PlayableWeek(s) == MinInt(|s.history| + 1, s.maxWeeks)
    ensures s.status == if |s.history| < s.maxWeeks then Active else Finished
  {
    hide RoleKept;
  }

  /** What a started room shows about its game. */
  ghost predicate RoomInStep(w: World, roomId: string)
    requires roomId in w.rooms
  {
    var room := w.rooms[roomId];
    && GetSession(w, roomId).Ok?
    && var s := GetSession(w, roomId).value;
       && s.roomId == roomId && s.maxWeeks == room.maxWeeks && |s.history| <= room.maxWeeks
       && room.scenarioId == s.scenario.id && |s.scenario.consumerDemand| == room.maxWeeks
       && room.currentWeek == MinInt(|s.history| + 1, room.maxWeeks)
       && room.status == (if |s.history| < room.maxWeeks then Active else Finished)
  }

  lemma StartedInStep(w: World, roomId: string)
    requires Sound(w) && Agrees(w) && roomId in w.rooms && w.rooms[roomId].status != Waiting
    ensures RoomInStep(w, roomId)
  {
    hide RoomsSound, DecisionsSound, DecisionsAgree, LobbyOk, Kept, PlayableWeek;
    var s := GetSession(w, roomId).value;
    SessionOfId(w, w.sessionOf[roomId]);
    SessionNotWaiting(w, roomId);
    PlayableWeekIs(s);
    KeptLength(s);
  }

  lemma KeptLength(s: Session)
    requires Kept(s)
    ensures |s.history| == s.currentWeek <= s.maxWeeks
  {
    hide RoleKept;
  }

  /** At every point of a run a started room is in step with its game: its week is the one
      after those recorded, and no more than its limit; it is over when all are recorded. */
  lemma RoomsInStep(scenarios: Repository, calls: seq<Call>, roomId: string, n: nat)
    requires FreshRun(scenarios, calls) && FaultFreeRun(calls) && n <= |calls|
    requires roomId in WorldAt(scenarios, calls, n).rooms
    requires WorldAt(scenarios, calls, n).rooms[roomId].status != Waiting
    ensures RoomInStep(WorldAt(scenarios, calls, n), roomId)
  {
    hide FreshRun, After, Sound, Agrees, RoomInStep;
    T.HealthyAt(scenarios, calls, n);
    StartedInStep(WorldAt(scenarios, calls, n), roomId);
  }

  // ---------- The lobby ----------

  /** A room is made with the id and the limit asked for, waiting and empty. */
  lemma CreateOutcome(w: World, maxWeeks: int, newId: Option<string>)
    ensures var (v, reply) := CreateStep(w, maxWeeks, newId, NoFault);
            if newId.None? then v == w && reply == Refused(IdFailure)
            else if maxWeeks <= 0 then v == w && reply == Refused(InvalidMaxWeeks)
            else
              && reply == RoomReply(Room(newId.value, Waiting, 0, maxWeeks, [], ""))
              && v == w.(rooms := w.rooms[newId.value := reply.room])
  {}

  /** Only the room joined changes, by one more seat at its end. */
  lemma JoinOutcome(w: World, roomId: string, name: string, newId: Option<string>)
    requires RoomsSound(w)
    ensures var (v, reply) := JoinStep(w, roomId, name, newId, NoFault);
            if roomId !in w.rooms then v == w && reply == Refused(RoomNotFound)
            else if newId.None? then v == w && reply == Refused(IdFailure)
            else if name == "" then v == w && reply == Refused(EmptyPlayerName)
            else if w.rooms[roomId].status != Waiting then v == w && reply == Refused(CannotJoinStarted)
            else if |w.rooms[roomId].players| >= 4 then v == w && reply == Refused(RoomFull)
            else if NameTaken(w.rooms[roomId].players, name) then v == w && reply == Refused(PlayerAlreadyIn)
            else
              var room := w.rooms[roomId];
              && reply == RoomReply(room.(players := room.players + [Player(newId.value, name, Unset, true)]))
              && v == w.(rooms := w.rooms[roomId := reply.room])
  {
    hide LobbyOk;
    if roomId in w.rooms {
      JoinRefusals(w.rooms[roomId], name);
    }
  }

  ghost predicate HeldByOther(players: seq<Player>, id: string, role: Role) {
    exists i :: 0 <= i < |players| && players[i].role == role && players[i].id != id
  }

  /** Only the role of the player's own seat changes. */
  lemma AssignOutcome(w: World, roomId: string, id: string, role: Role)
    requires RoomsSound(w)
    ensures var (v, reply) := AssignStep(w, roomId, id, role, NoFault);
            if roomId !in w.rooms then v == w && reply == Refused(RoomNotFound)
            else if w.rooms[roomId].status != Waiting then v == w && reply == Refused(GameAlreadyStarted)
            else if !IsKnownRole(role) then v == w && reply == Refused(InvalidRole)
            else if HeldByOther(w.rooms[roomId].players, id, role) then v == w && reply == Refused(RoleAlreadyTaken)
            else if !Sits(w.rooms[roomId].players, id) then v == w && reply == Refused(PlayerNotFound)
            else
              && reply.RoomReply? && v == w.(rooms := w.rooms[roomId := reply.room])
              && OnlyRoleChanged(w.rooms[roomId], reply.room, id, role)
  {
    hide Assigned, AssignProblem, RolesDistinct, NamesDistinct, Bijective;
    if roomId in w.rooms {
      ChoiceRefusals(w.rooms[roomId], id, role);
      if AssignProblem(w.rooms[roomId], id, role).None? {
        ChosenSeat(w.rooms[roomId], id, role);
      }
    }
  }

  ghost predicate OnlyRoleChanged(room: Room, after: Room, id: string, role: Role) {
    && after == room.(players := after.players) && |after.players| == |room.players|
    && forall i :: 0 <= i < |room.players| ==>
         after.players[i] == if room.players[i].id == id then room.players[i].(role := role) else room.players[i]
  }

  // ---------- Starting ----------

  /** A game is started in a waiting room of four with a known and valid scenario. Its session
      is new, belongs to the room and has its limit; the room opens week one with every seat
      kept and every role held. */
  lemma StartOutcome(w: World, roomId: string, scenarioId: string, draws: seq<nat>, newId: Option<string>)
    requires Sound(w)
    ensures var (v, reply) := StartStep(w, roomId, scenarioId, draws, newId, NoFault, NoFault);
            if roomId !in w.rooms then v == w && reply == Refused(RoomNotFound)
            else if scenarioId != "" && scenarioId !in w.scenarios.byId then v == w && reply == Refused(RoomNotFound)
            else
              var scenario := if scenarioId == "" then w.scenarios.default else w.scenarios.byId[scenarioId];
              var room := w.rooms[roomId];
              if Validate(scenario).Some? then v == w && reply == Refused(Validate(scenario).value)
              else if room.status != Waiting then v == w && reply == Refused(GameAlreadyStarted)
              else if |room.players| != 4 then v == w && reply == Refused(RoomNotReady)
              else if newId.None? then v == w && reply == Refused(IdFailure)
              else
                && reply == SessionReply(FreshSession(newId.value, roomId, CompiledFor(scenario, room, draws),
                                                      room.maxWeeks))
                && v.sessions == w.sessions[newId.value := reply.session]
                && v.sessionOf == w.sessionOf[roomId := newId.value]
                && v.decisions == w.decisions && v.scenarios == w.scenarios
                && v.rooms == w.rooms[roomId := room.(status := Active, currentWeek := 1, scenarioId := scenario.id,
                                                      players := Completed(room.players))]
  {
    hide Validate, Completed, DemandTable, SessionsSound, IndexSound, DecisionsSound, LobbyOk;
    if roomId in w.rooms {
      RoomHasWeeks(w, roomId);
      StartRefusals(w.rooms[roomId]);
      if GetScenario(w, scenarioId).Ok? {
        var scenario := GetScenario(w, scenarioId).value;
        CompileRefusals(scenario, w.rooms[roomId].maxWeeks, draws);
        if StartScenario(w, roomId, scenarioId, draws).Ok? {
          StartedSessionSound(w, roomId, scenarioId, draws, "");
        }
      }
    }
  }

  lemma RoomHasWeeks(w: World, roomId: string)
    requires RoomsSound(w) && roomId in w.rooms
    ensures w.rooms[roomId].maxWeeks > 0 && w.rooms[roomId].id == roomId && LobbyOk(w.rooms[roomId])
  {
    hide LobbyOk;
  }

  /** The scenario with its demand table filled in for the room's weeks. */
  ghost function CompiledFor(scenario: Scenario, room: Room, draws: seq<nat>): Scenario
    requires Validate(scenario).None? && room.maxWeeks > 0
  {
    Materialized(scenario, room.maxWeeks, draws).value
  }

  // ---------- Submitting ----------

  lemma SeatFound(room: Room, playerId: string)
    requires LobbyOk(room)
    ensures RoleOfPlayer(room, playerId) == Err(PlayerNotFound) <==> !Sits(room.players, playerId)
    ensures Sits(room.players, playerId) && room.status != Waiting ==>
              RoleOfPlayer(room, playerId).Ok? && IsKnownRole(RoleOfPlayer(room, playerId).value)
    ensures RoleOfPlayer(room, playerId).Ok? || RoleOfPlayer(room, playerId) == Err(PlayerNotFound) ||
            RoleOfPlayer(room, playerId) == Err(PlayerRoleMissing)
  {
    RoleLookedUp(room.players, playerId, 0);
    if k :| 0 <= k < |room.players| && room.players[k].id == playerId {
      assert room.status != Waiting ==> IsKnownRole(room.players[k].role);
    }
  }

  /** The role seat k holds, as long as nobody else has its id. */
  ghost predicate Holds(players: seq<Player>, playerId: string, role: Role) {
    exists k :: 0 <= k < |players| && players[k].id == playerId && players[k].role == role
  }

  /** An order is accepted exactly if it is not negative, none included, and comes from a seat
      of a room whose game is on. It then is that role's order for the coming week; the other
      orders of the week stay. */
  lemma SubmitOutcome(w: World, roomId: string, playerId: string, order: int)
    requires Sound(w) && Agrees(w)
    ensures var reply := SubmitStep(w, roomId, playerId, order, NoFault).1;
            && (reply.SnapshotReply? <==>
                  && order >= 0 && roomId in w.rooms && w.rooms[roomId].status == Active
                  && Sits(w.rooms[roomId].players, playerId))
            && (order < 0 ==> reply == Refused(NegativeDecision(Unset)))
            && (order >= 0 && roomId !in w.rooms ==> reply == Refused(RoomNotFound))
            && (order >= 0 && roomId in w.rooms ==>
                  var room := w.rooms[roomId];
                  && (!Sits(room.players, playerId) ==> reply == Refused(PlayerNotFound))
                  && (Sits(room.players, playerId) && room.status == Finished ==> reply == Refused(SessionNotActive))
                  && (Sits(room.players, playerId) && room.status == Waiting ==>
                        reply == Refused(if Holds(room.players, playerId, Unset) then PlayerRoleMissing
                                         else SessionNotFound)))
  {
    hide Sound, Agrees, Key, PlayableWeek, SnapshotOf, CurrentOrders;
    if order >= 0 && roomId in w.rooms {
      RoomIsSound(w, roomId);
      SeatFound(w.rooms[roomId], playerId);
      RoleLookedUp(w.rooms[roomId].players, playerId, 0);
      SessionOfRoom(w, roomId);
    }
  }

  lemma RoomIsSound(w: World, roomId: string)
    requires Sound(w) && roomId in w.rooms
    ensures LobbyOk(w.rooms[roomId]) && IdsDistinct(w.rooms[roomId].players)
  {
    hide SessionsSound, IndexSound, DecisionsSound, RolesDistinct, NamesDistinct, Bijective;
  }

  /** A waiting room has no session; a started one has one of the same status. */
  lemma SessionOfRoom(w: World, roomId: string)
    requires Sound(w) && Agrees(w) && roomId in w.rooms
    ensures w.rooms[roomId].status == Waiting ==> GetSession(w, roomId) == Err(SessionNotFound)
    ensures w.rooms[roomId].status != Waiting ==>
              GetSession(w, roomId).Ok? && GetSession(w, roomId).value.status == w.rooms[roomId].status
  {
    hide RoomsSound, DecisionsSound, DecisionsAgree, LobbyOk, Kept, PlayableWeek;
    if GetSession(w, roomId).Ok? {
      SessionNotWaiting(w, roomId);
    }
  }

  /** What an accepted order from seat k leaves behind: the reply is about the coming week and
      has that role's order set, the rest as before, and only the stored orders change. */
  lemma SubmittedOrders(w: World, roomId: string, k: nat, order: int)
    requires Sound(w) && Agrees(w) && order >= 0
    requires roomId in w.rooms && w.rooms[roomId].status == Active && k < |w.rooms[roomId].players|
    ensures var player := w.rooms[roomId].players[k];
            var (v, reply) := SubmitStep(w, roomId, player.id, order, NoFault);
            && reply.SnapshotReply? && GetSession(w, roomId).Ok?
            && var week := |GetSession(w, roomId).value.history| + 1;
               var orders := CurrentOrders(w, roomId, week).orders[player.role := order];
               && reply.snapshot.roomId == roomId && reply.snapshot.week == week && reply.snapshot.orders == orders
               && v == w.(decisions := v.decisions)
               && CurrentOrders(v, roomId, week).orders == orders
  {
    hide Sound, Agrees, Key;
    var room := w.rooms[roomId];
    RoomIsSound(w, roomId);
    SeatFound(room, room.players[k].id);
    RoleLookedUp(room.players, room.players[k].id, 0);
    SessionOfRoom(w, roomId);
    var s := GetSession(w, roomId).value;
    ActiveWeek(w, roomId);
    CurrentOrdersSound(w, roomId, PlayableWeek(s));
  }

  lemma ActiveWeek(w: World, roomId: string)
    requires Sound(w) && Agrees(w) && roomId in w.rooms && w.rooms[roomId].status != Waiting
    ensures GetSession(w, roomId).Ok?
    ensures var s := GetSession(w, roomId).value;
            && s.currentWeek == |s.history| <= s.maxWeeks && s.maxWeeks == w.rooms[roomId].maxWeeks
            && PlayableWeek(s) == MinInt(|s.history| + 1, s.maxWeeks)
            && (s.status == Active ==> |s.history| < s.maxWeeks)
  {
    hide Sound, Agrees, Kept, PlayableWeek;
    StartedInStep(w, roomId);
    SessionIsKept(w, roomId);
    PlayableWeekIs(GetSession(w, roomId).value);
    KeptLength(GetSession(w, roomId).value);
  }

  lemma SessionIsKept(w: World, roomId: string)
    requires Sound(w) && GetSession(w, roomId).Ok?
    ensures Kept(GetSession(w, roomId).value)
  {
    hide RoomsSound, DecisionsSound, Kept;
    SessionOfId(w, w.sessionOf[roomId]);
  }

  // ---------- Advancing ----------

  /** A week is played exactly in a room whose game is on and for whose coming week every role
      has an order. */
  lemma AdvanceOutcome(w: World, roomId: string)
    requires Sound(w) && Agrees(w)
    ensures var reply := AdvanceStep(w, roomId, NoFault, NoFault, NoFault).1;
            && (roomId !in w.rooms ==> reply == Refused(RoomNotFound))
            && (roomId in w.rooms && w.rooms[roomId].status == Waiting ==> reply == Refused(SessionNotFound))
            && (roomId in w.rooms && w.rooms[roomId].status == Finished ==> reply == Refused(WeekNotReady))
            && (roomId in w.rooms && w.rooms[roomId].status == Active ==>
                  && GetSession(w, roomId).Ok?
                  && var s := GetSession(w, roomId).value;
                     if Complete(CurrentOrders(w, roomId, |s.history| + 1).orders) then reply.WeekReply?
                     else reply == Refused(WeekNotReady))
  {
    hide Sound, Agrees, Key, CurrentOrders, SnapshotOf, CommitWeek, AdvanceProblem, GetDecisions, AdvanceStep;
    AdvanceSucceedsIff(w, roomId);
    NothingToAdvance(w, roomId);
    if roomId in w.rooms {
      SessionOfRoom(w, roomId);
      if w.rooms[roomId].status != Waiting {
        ActiveWeek(w, roomId);
        ReadyMeansFour(CurrentOrders(w, roomId, PlayableWeek(GetSession(w, roomId).value)));
        NotReady(w, roomId);
        if w.rooms[roomId].status == Finished {
          FinishedHasNoOrders(w, roomId);
        }
      }
    }
  }

  lemma NothingToAdvance(w: World, roomId: string)
    ensures var reply := AdvanceStep(w, roomId, NoFault, NoFault, NoFault).1;
            && (roomId !in w.rooms ==> reply == Refused(RoomNotFound))
            && (roomId in w.rooms && GetSession(w, roomId).Err? ==> reply == Refused(GetSession(w, roomId).error))
  {}

  /** Where room and session exist only missing orders are refused. */
  lemma NotReady(w: World, roomId: string)
    requires Sound(w) && Agrees(w) && GetRoom(w, roomId).Ok? && GetSession(w, roomId).Ok?
    ensures var reply := AdvanceStep(w, roomId, NoFault, NoFault, NoFault).1;
            reply.WeekReply? || reply == Refused(WeekNotReady)
  {
    hide Sound, Agrees, AdvanceTarget, AdvanceProblem, NextWeek, Advanced, Key;
    ReadyIffTarget(w, roomId);
    if AdvanceTarget(w, roomId).Ok? {
      TargetPlays(w, roomId);
    }
  }

  lemma FinishedHasNoOrders(w: World, roomId: string)
    requires Sound(w) && Agrees(w) && GetSession(w, roomId).Ok? && GetSession(w, roomId).value.status != Active
    ensures CurrentOrders(w, roomId, PlayableWeek(GetSession(w, roomId).value)).orders == map[]
  {
    hide Sound, Agrees, Key, PlayableWeek;
    if Key(roomId, PlayableWeek(GetSession(w, roomId).value)) in w.decisions {
      RunningSession(w, roomId);
      assert false;
    }
  }

  /** A played week is added to the room's session and to no other; the room moves on to the
      week after, or to the end; the orders played are gone, and nothing else is touched. */
  lemma PlayedWeek(w: World, roomId: string)
    requires Sound(w) && Agrees(w) && AdvanceStep(w, roomId, NoFault, NoFault, NoFault).1.WeekReply?
    ensures roomId in w.rooms && GetSession(w, roomId).Ok?
    ensures var (v, reply) := AdvanceStep(w, roomId, NoFault, NoFault, NoFault);
            var s, room := GetSession(w, roomId).value, w.rooms[roomId];
            var week := |s.history| + 1;
            var orders := CurrentOrders(w, roomId, week).orders;
            && Complete(orders) && reply == WeekReply(NextWeek(s, orders))
            && v.sessions == w.sessions[s.id := Advanced(s, orders)] && v.sessionOf == w.sessionOf
            && v.rooms == w.rooms[roomId := room.(currentWeek := MinInt(week + 1, room.maxWeeks),
                                                  status := if week < room.maxWeeks then Active else Finished)]
            && v.decisions == w.decisions - {Key(roomId, week)}
            && v.scenarios == w.scenarios
  {
    hide Sound, Agrees, Key, Advanced, NextWeek, AdvanceTarget, PlayableWeek, AdvanceProblem;
    AdvanceOutcome(w, roomId);
    ActiveWeek(w, roomId);
    T.TargetOfAdvance(w, roomId);
    AdvanceTargetFacts(w, roomId);
    var (s, orders) := AdvanceTarget(w, roomId).value;
    PlayedOrders(w, roomId);
    RoomHasId(w, roomId);
    SessionIndexed(w, roomId);
    PlayedFields(s, orders);
  }

  lemma RoomHasId(w: World, roomId: string)
    requires Sound(w) && roomId in w.rooms
    ensures w.rooms[roomId].id == roomId
  {
    hide SessionsSound, IndexSound, DecisionsSound, LobbyOk;
  }

  lemma SessionIndexed(w: World, roomId: string)
    requires Sound(w) && GetSession(w, roomId).Ok?
    ensures var s := GetSession(w, roomId).value;
            && s.id in w.sessions && s.roomId == roomId && roomId in w.sessionOf && w.sessionOf[roomId] == s.id
            && w.sessionOf[roomId := s.id] == w.sessionOf
  {
    hide RoomsSound, DecisionsSound, Kept, TableOk;
    SessionOfId(w, w.sessionOf[roomId]);
  }

  lemma PlayedOrders(w: World, roomId: string)
    requires AdvanceTarget(w, roomId).Ok?
    ensures GetSession(w, roomId) == Ok(AdvanceTarget(w, roomId).value.0)
    ensures AdvanceTarget(w, roomId).value.1 ==
            CurrentOrders(w, roomId, PlayableWeek(AdvanceTarget(w, roomId).value.0)).orders
  {
    hide Key, PlayableWeek;
  }

  lemma PlayedFields(s: Session, orders: Decisions)
    requires AdvanceProblem(s, orders).None?
    ensures var next := Advanced(s, orders);
            && next.id == s.id && next.roomId == s.roomId
            && next.status == (if s.currentWeek + 1 < s.maxWeeks then Active else Finished)
            && PlayableWeek(next) == MinInt(s.currentWeek + 2, s.maxWeeks)
            && PlayableWeek(s) == s.currentWeek + 1
  {}

  // ---------- What never changes ----------

  /** A room keeps its id and its limit, and every player keeps seat, id and name. */
  ghost predicate SameTable(room: Room, after: Room) {
    && after.id == room.id && after.maxWeeks == room.maxWeeks && |room.players| <= |after.players|
    && forall i :: 0 <= i < |room.players| ==>
         after.players[i].id == room.players[i].id && after.players[i].name == room.players[i].name
  }

  lemma TableStays(w: World, call: Call, roomId: string)
    requires Sound(w) && Agrees(w) && FreshId(w, call) && FaultFree(call) && roomId in w.rooms
    ensures roomId in Step(w, call).0.rooms && SameTable(w.rooms[roomId], Step(w, call).0.rooms[roomId])
  {
    hide Sound, Agrees, SameTable, CreateStep, JoinStep, AssignStep, StartStep, SubmitTarget, AdvanceStep;
    SoundRooms(w);
    SameTableSelf(w.rooms[roomId]);
    match call
    case CreateRoom(maxWeeks, newId, _) => CreateOutcome(w, maxWeeks, newId);
    case JoinRoom(other, name, newId, _) => JoinKeepsTable(w, other, name, newId);
    case AssignRole(other, id, role, _) => AssignKeepsTable(w, other, id, role);
    case StartGame(other, scenarioId, draws, newId, _, _) => StartKeepsTable(w, other, scenarioId, draws, newId);
    case SubmitOrder(_, _, _, _) =>
    case AdvanceWeek(other, _, _, _) => AdvanceKeepsTable(w, other);
  }

  lemma SoundRooms(w: World)
    requires Sound(w)
    ensures RoomsSound(w)
  {}

  lemma SameTableSelf(room: Room)
    ensures SameTable(room, room)
  {}

  /** Of the rooms at most one changes, and it keeps its table. */
  ghost predicate OneTableMoved(w: World, v: World, roomId: string) {
    v.rooms == w.rooms ||
    (roomId in w.rooms && roomId in v.rooms && v.rooms == w.rooms[roomId := v.rooms[roomId]]
     && SameTable(w.rooms[roomId], v.rooms[roomId]))
  }

  lemma JoinKeepsTable(w: World, roomId: string, name: string, newId: Option<string>)
    requires RoomsSound(w)
    ensures OneTableMoved(w, JoinStep(w, roomId, name, newId, NoFault).0, roomId)
  {
    hide JoinStep, LobbyOk;
    JoinOutcome(w, roomId, name, newId);
  }

  lemma AssignKeepsTable(w: World, roomId: string, id: string, role: Role)
    requires RoomsSound(w)
    ensures OneTableMoved(w, AssignStep(w, roomId, id, role, NoFault).0, roomId)
  {
    hide AssignStep, LobbyOk;
    AssignOutcome(w, roomId, id, role);
  }

  lemma StartKeepsTable(w: World, roomId: string, scenarioId: string, draws: seq<nat>, newId: Option<string>)
    requires Sound(w)
    ensures OneTableMoved(w, StartStep(w, roomId, scenarioId, draws, newId, NoFault, NoFault).0, roomId)
  {
    hide StartStep, SessionsSound, IndexSound, DecisionsSound, LobbyOk, Validate, Completed, FreshSession,
      EnsureProblem;
    StartOutcome(w, roomId, scenarioId, draws, newId);
    if roomId in w.rooms {
      RoomHasWeeks(w, roomId);
      StartRefusals(w.rooms[roomId]);
      if StartProblem(w.rooms[roomId]).None? {
        CompletedIsBijection(w.rooms[roomId].players);
      }
    }
  }

  lemma AdvanceKeepsTable(w: World, roomId: string)
    requires Sound(w) && Agrees(w)
    ensures OneTableMoved(w, AdvanceStep(w, roomId, NoFault, NoFault, NoFault).0, roomId)
  {
    hide Sound, Agrees, AdvanceStep, Advanced, NextWeek, Key;
    if AdvanceStep(w, roomId, NoFault, NoFault, NoFault).1.WeekReply? {
      PlayedWeek(w, roomId);
    } else {
      UnplayedStep(w, roomId);
    }
  }

  lemma UnplayedStep(w: World, roomId: string)
    requires !AdvanceStep(w, roomId, NoFault, NoFault, NoFault).1.WeekReply?
    ensures AdvanceStep(w, roomId, NoFault, NoFault, NoFault).0 == w
  {
    hide AdvanceTarget, AdvanceProblem, NextWeek, Advanced, Key;
  }

  /** Over a whole run every room keeps its limit, and every player seat, id and name. */
  lemma {:induction false} TablesStay(scenarios: Repository, calls: seq<Call>, roomId: string, i: nat, j: nat)
    requires FreshRun(scenarios, calls) && FaultFreeRun(calls) && i <= j <= |calls|
    requires roomId in WorldAt(scenarios, calls, i).rooms
    ensures roomId in WorldAt(scenarios, calls, j).rooms
    ensures SameTable(WorldAt(scenarios, calls, i).rooms[roomId], WorldAt(scenarios, calls, j).rooms[roomId])
    decreases j - i
  {
    hide FreshRun, FaultFree, Sound, Agrees, WorldAt, Step, FreshId;
    if i < j {
      TablesStay(scenarios, calls, roomId, i, j - 1);
      RunPrefix(scenarios, calls, j - 1);
      T.HealthyAt(scenarios, calls, j - 1);
      TableStays(WorldAt(scenarios, calls, j - 1), calls[j - 1], roomId);
    }
  }
}
