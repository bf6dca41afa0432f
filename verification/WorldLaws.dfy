/** What the stores keep over every run of service calls, with and without failing writes. */
module WorldLaws {
  import opened Common
  import opened Scenarios
  import opened Chain
  import opened ChainLaws
  import opened Rooms
  import opened WeekDecisions
  import opened Worlds

  // ---------- The invariant that survives failing writes ----------

  ghost predicate RoomSound(room: Room, id: string) {
    room.id == id && LobbyOk(room) && room.maxWeeks > 0
  }

  /** The table covers every week and, in random mode, stays within its bounds. */
  ghost predicate TableOk(s: Session) {
    && |s.scenario.consumerDemand| == s.maxWeeks
    && (NormalizedMode(s.scenario).RandomBlocks? ==>
          && s.scenario.demandMin <= s.scenario.demandMax
          && forall i :: 0 <= i < s.maxWeeks ==>
               s.scenario.demandMin <= s.scenario.consumerDemand[i] <= s.scenario.demandMax)
  }

  /** A session belongs to a room that has started, and is never behind it. */
  ghost predicate SessionSound(s: Session, id: string, room: Room) {
    && s.id == id && Kept(s) && TableOk(s)
    && room.status != Waiting
    && s.maxWeeks == room.maxWeeks && s.scenario.id == room.scenarioId
    && room.currentWeek <= PlayableWeek(s)
  }

  ghost predicate OrdersSound(orders: Decisions) {
    KnownRolesOnly(orders) && forall role :: role in orders ==> orders[role] >= 0
  }

  ghost predicate RoomsSound(w: World) {
    forall id :: id in w.rooms ==> RoomSound(w.rooms[id], id)
  }

  /** Each session has its room, and the index finds it. */
  ghost predicate SessionsSound(w: World) {
    forall id :: id in w.sessions ==>
      && w.sessions[id].roomId in w.rooms
      && w.sessions[id].roomId in w.sessionOf && w.sessionOf[w.sessions[id].roomId] == id
      && SessionSound(w.sessions[id], id, w.rooms[w.sessions[id].roomId])
  }

  ghost predicate IndexSound(w: World) {
    forall roomId :: roomId in w.sessionOf ==>
      w.sessionOf[roomId] in w.sessions && w.sessions[w.sessionOf[roomId]].roomId == roomId
  }

  ghost predicate DecisionsSound(w: World) {
    forall key :: key in w.decisions ==>
      var d := w.decisions[key];
      && key == Key(d.roomId, d.week) && OrdersSound(d.orders)
      && GetSession(w, d.roomId).Ok? && d.week <= PlayableWeek(GetSession(w, d.roomId).value)
  }

  ghost predicate Sound(w: World) {
    RoomsSound(w) && SessionsSound(w) && IndexSound(w) && DecisionsSound(w)
  }

  // ---------- Single writes ----------

  lemma SaveRoomKeeps(w: World, room: Room, f: Fault)
    requires Sound(w) && RoomSound(room, room.id)
    requires room.id in w.sessionOf ==> SessionSound(w.sessions[w.sessionOf[room.id]], w.sessionOf[room.id], room)
    ensures Sound(SaveRoom(w, room, f))
  {
    hide RoomSound, SessionSound, OrdersSound;
  }

  lemma SaveSessionKeeps(w: World, s: Session, f: Fault)
    requires Sound(w) && s.roomId in w.rooms && SessionSound(s, s.id, w.rooms[s.roomId])
    requires s.roomId in w.sessionOf ==> w.sessionOf[s.roomId] == s.id
    requires s.id in w.sessions ==>
               s.roomId == w.sessions[s.id].roomId && PlayableWeek(w.sessions[s.id]) <= PlayableWeek(s)
    ensures Sound(SaveSession(w, s, f))
  {
    hide RoomSound, SessionSound, DecisionsSound, PlayableWeek;
    SavedSessionDecisions(w, s, f);
  }

  lemma SavedSessionDecisions(w: World, s: Session, f: Fault)
    requires DecisionsSound(w)
    requires s.roomId in w.sessionOf ==> w.sessionOf[s.roomId] == s.id
    requires s.id in w.sessions ==>
               s.roomId == w.sessions[s.id].roomId && PlayableWeek(w.sessions[s.id]) <= PlayableWeek(s)
    ensures DecisionsSound(SaveSession(w, s, f))
  {
    hide OrdersSound, PlayableWeek, Key;
    var v := SaveSession(w, s, f);
    forall key | key in v.decisions
      ensures GetSession(v, v.decisions[key].roomId).Ok?
      ensures v.decisions[key].week <= PlayableWeek(GetSession(v, v.decisions[key].roomId).value)
    {
      assert GetSession(w, w.decisions[key].roomId).Ok?;
    }
  }

  lemma SaveDecisionsKeeps(w: World, d: WeeklyDecisions, f: Fault)
    requires Sound(w) && OrdersSound(d.orders)
    requires GetSession(w, d.roomId).Ok? && d.week <= PlayableWeek(GetSession(w, d.roomId).value)
    ensures Sound(SaveDecisions(w, d, f))
  {
    hide RoomSound, SessionSound, OrdersSound, PlayableWeek, Key;
  }

  lemma DeleteKeeps(w: World, roomId: string, week: int, f: Fault)
    requires Sound(w)
    ensures Sound(DeleteDecisions(w, roomId, week, f))
  {
    hide RoomSound, SessionSound, OrdersSound, PlayableWeek, Key;
  }

  // ---------- Calls ----------

  lemma CreateKeeps(w: World, maxWeeks: int, newId: Option<string>, save: Fault)
    requires Sound(w) && (newId.Some? ==> newId.value !in w.rooms)
    ensures Sound(CreateStep(w, maxWeeks, newId, save).0)
  {
    hide SessionSound, OrdersSound, DecisionsSound;
    if newId.Some? && maxWeeks > 0 {
      SaveRoomKeeps(w, EmptyRoom(newId.value, maxWeeks), save);
    }
  }

  lemma JoinKeeps(w: World, roomId: string, name: string, newId: Option<string>, save: Fault)
    requires Sound(w) && FreshId(w, JoinRoom(roomId, name, newId, save))
    ensures Sound(JoinStep(w, roomId, name, newId, save).0)
  {
    hide OrdersSound, DecisionsSound, LobbyOk, Kept, TableOk;
    if roomId in w.rooms && newId.Some? && AddProblem(w.rooms[roomId], name).None? {
      var player := Player(newId.value, name, Unset, false);
      AddKeepsLobby(w.rooms[roomId], player);
      SaveRoomKeeps(w, Added(w.rooms[roomId], player), save);
    }
  }

  lemma AssignKeeps(w: World, roomId: string, playerId: string, role: Role, save: Fault)
    requires Sound(w)
    ensures Sound(AssignStep(w, roomId, playerId, role, save).0)
  {
    hide OrdersSound, DecisionsSound, LobbyOk, Kept, TableOk;
    if roomId in w.rooms && AssignProblem(w.rooms[roomId], playerId, role).None? {
      AssignKeepsLobby(w.rooms[roomId], playerId, role);
      SaveRoomKeeps(w, Assigned(w.rooms[roomId], playerId, role), save);
    }
  }

  /** A compiled scenario always gets past NewGameSession's checks, and the session it makes
      starts sound. */
  lemma StartedSessionSound(w: World, roomId: string, scenarioId: string, draws: seq<nat>, id: string)
    requires StartScenario(w, roomId, scenarioId, draws).Ok?
    ensures roomId in w.rooms && StartProblem(w.rooms[roomId]).None?
    ensures var room, scenario := w.rooms[roomId], StartScenario(w, roomId, scenarioId, draws).value;
            && NewSessionProblem(scenario, room.maxWeeks).None?
            && var session := FreshSession(id, room.id, scenario, room.maxWeeks);
               SessionSound(session, id, StartedRoom(room, session))
  {
    hide RoleKept, DemandTable;
    StartScenarioFacts(w, roomId, scenarioId, draws);
    var room, scenario := w.rooms[roomId], StartScenario(w, roomId, scenarioId, draws).value;
    MaterializedIsValid(GetScenario(w, scenarioId).value, room.maxWeeks, draws);
    ReadableAfterCompiling(scenario);
    FreshKept(FreshSession(id, room.id, scenario, room.maxWeeks));
  }

  /** What a caller can check before a start: nothing refuses it before its session gets an id
      exactly if the room is waiting with four players and the scenario is found and valid. */
  lemma StartScenarioIff(w: World, roomId: string, scenarioId: string, draws: seq<nat>)
    requires RoomsSound(w)
    ensures StartScenario(w, roomId, scenarioId, draws).Ok? <==>
            && roomId in w.rooms && w.rooms[roomId].status == Waiting && |w.rooms[roomId].players| == SEATS
            && GetScenario(w, scenarioId).Ok? && Validate(GetScenario(w, scenarioId).value).None?
  {
    hide LobbyOk, Validate, DemandTable;
    if roomId in w.rooms {
      StartSucceedsIff(w.rooms[roomId]);
    }
  }

  lemma ReadableAfterCompiling(s: Scenario)
    requires Validate(s).None? && s.consumerDemand != []
    requires NormalizedMode(s).RandomBlocks? ==>
               forall i :: 0 <= i < |s.consumerDemand| ==> s.demandMin <= s.consumerDemand[i] <= s.demandMax
    ensures DemandReadable(s)
    ensures NormalizedMode(s).RandomBlocks? ==> s.demandMin <= s.demandMax
  {}

  lemma StartedRoomSound(room: Room, id: string, session: Session)
    requires RoomSound(room, id) && StartProblem(room).None?
    ensures RoomSound(StartedRoom(room, session), id)
  {
    hide Completed;
    StartKeepsLobby(room);
  }

  lemma StartKeeps(w: World, roomId: string, scenarioId: string, draws: seq<nat>, newId: Option<string>,
                   saveRoom: Fault, saveSession: Fault)
    requires Sound(w) && (newId.Some? ==> newId.value !in w.sessions)
    ensures Sound(StartStep(w, roomId, scenarioId, draws, newId, saveRoom, saveSession).0)
  {
    hide OrdersSound, DecisionsSound, LobbyOk, Kept, TableOk, FreshSession, StartScenario, Completed;
    var compiled := StartScenario(w, roomId, scenarioId, draws);
    if compiled.Ok? && newId.Some? {
      StartedSessionSound(w, roomId, scenarioId, draws, newId.value);
      var room := w.rooms[roomId];
      var session := FreshSession(newId.value, room.id, compiled.value, room.maxWeeks);
      FreshSessionRoom(newId.value, room.id, compiled.value, room.maxWeeks);
      StartedRoomSound(room, roomId, session);
      assert room.id == roomId && roomId !in w.sessionOf;
      SaveRoomKeeps(w, StartedRoom(room, session), saveRoom);
      if saveRoom.NoFault? {
        SaveSessionKeeps(SaveRoom(w, StartedRoom(room, session), saveRoom), session, saveSession);
      }
    }
  }

  lemma FreshSessionRoom(id: string, roomId: string, scenario: Scenario, maxWeeks: int)
    ensures FreshSession(id, roomId, scenario, maxWeeks).roomId == roomId
    ensures FreshSession(id, roomId, scenario, maxWeeks).id == id
  {}

  lemma SubmitKeeps(w: World, roomId: string, playerId: string, order: int, save: Fault)
    requires Sound(w)
    ensures Sound(SubmitStep(w, roomId, playerId, order, save).0)
  {
    hide SessionSound, LobbyOk, Key;
    var target := SubmitTarget(w, roomId, playerId, order);
    if target.Ok? {
      var (session, role) := target.value;
      SubmittedRoleKnown(w.rooms[roomId], playerId);
      var week := PlayableWeek(session);
      CurrentOrdersSound(w, roomId, week);
      var before := CurrentOrders(w, roomId, week);
      SaveDecisionsKeeps(w, before.(orders := before.orders[role := order]), save);
    }
  }

  lemma CurrentOrdersSound(w: World, roomId: string, week: int)
    requires Sound(w)
    ensures var d := CurrentOrders(w, roomId, week); d.roomId == roomId && d.week == week && OrdersSound(d.orders)
  {
    hide RoomsSound, SessionsSound, IndexSound, Key;
    if Key(roomId, week) in w.decisions {
      var d := w.decisions[Key(roomId, week)];
      KeyInjective(roomId, week, d.roomId, d.week);
    }
  }

  lemma SubmittedRoleKnown(room: Room, playerId: string)
    requires LobbyOk(room) && RoleOfPlayer(room, playerId).Ok?
    ensures IsKnownRole(RoleOfPlayer(room, playerId).value)
  {
    var k := RoleHolder(room.players, playerId, 0);
  }

  /** Four submitted orders are one per role and pass every check of AdvanceWeek. */
  lemma AdvanceTargetFacts(w: World, roomId: string)
    requires Sound(w) && AdvanceTarget(w, roomId).Ok?
    ensures var (session, orders) := AdvanceTarget(w, roomId).value;
            && roomId in w.sessionOf && w.sessionOf[roomId] in w.sessions
            && session == w.sessions[w.sessionOf[roomId]] && session.roomId == roomId
            && Acceptable(orders)
            && Key(roomId, PlayableWeek(session)) in w.decisions
            && w.decisions[Key(roomId, PlayableWeek(session))].orders == orders
  {
    hide RoomSound, SessionSound, Key;
    var (session, orders) := AdvanceTarget(w, roomId).value;
    var d := w.decisions[Key(roomId, PlayableWeek(session))];
    ReadyMeansFour(d);
    assert Complete(orders);
  }

  lemma NextSessionSound(s: Session, orders: Decisions, id: string, room: Room)
    requires SessionSound(s, id, room) && AdvanceProblem(s, orders).None?
    ensures var next := Advanced(s, orders);
            && next.id == s.id && next.roomId == s.roomId && next.maxWeeks == s.maxWeeks
            && next.scenario == s.scenario && next.currentWeek == s.currentWeek + 1
            && PlayableWeek(s) <= PlayableWeek(next)
            && SessionSound(next, id, room)
            && SessionSound(next, id, room.(currentWeek := PlayableWeek(next), status := next.status))
  {
    hide RoleKept;
    StepKept(s, orders);
  }

  lemma AdvanceKeeps(w: World, roomId: string, saveSession: Fault, saveRoom: Fault, delete: Fault)
    requires Sound(w)
    ensures Sound(AdvanceStep(w, roomId, saveSession, saveRoom, delete).0)
  {
    hide SessionSound, LobbyOk, Key, DecisionsSound, Advanced, NextWeek, AdvanceTarget;
    if AdvanceTarget(w, roomId).Ok? {
      AdvanceTargetFacts(w, roomId);
      var (session, orders) := AdvanceTarget(w, roomId).value;
      if AdvanceProblem(session, orders).None? {
        CommitKeeps(w, roomId, session, orders, saveSession, saveRoom, delete);
      }
    }
  }

  lemma CommitKeeps(w: World, roomId: string, session: Session, orders: Decisions,
                    saveSession: Fault, saveRoom: Fault, delete: Fault)
    requires Sound(w) && roomId in w.sessionOf && w.sessionOf[roomId] in w.sessions
    requires session == w.sessions[w.sessionOf[roomId]] && session.roomId == roomId
    requires AdvanceProblem(session, orders).None?
    ensures roomId in w.rooms
    ensures Sound(CommitWeek(w, roomId, session, orders, saveSession, saveRoom, delete).0)
  {
    hide Kept, TableOk, DecisionsSound, Advanced, NextWeek, PlayableWeek, LobbyOk;
    var id := w.sessionOf[roomId];
    NextSessionSound(session, orders, id, w.rooms[roomId]);
    var next := Advanced(session, orders);
    var room := w.rooms[roomId].(currentWeek := PlayableWeek(next), status := next.status);
    RoomStaysSound(w.rooms[roomId], roomId, session, next, room);
    SaveSessionKeeps(w, next, saveSession);
    var w1 := SaveSession(w, next, saveSession);
    if saveSession.NoFault? {
      SaveRoomKeeps(w1, room, saveRoom);
      if saveRoom.NoFault? {
        DeleteKeeps(SaveRoom(w1, room, saveRoom), roomId, PlayableWeek(session), delete);
      }
    }
  }

  lemma RoomStaysSound(room: Room, id: string, session: Session, next: Session, after: Room)
    requires RoomSound(room, id) && SessionSound(session, session.id, room) && SessionSound(next, session.id, room)
    requires after == room.(currentWeek := PlayableWeek(next), status := next.status)
    ensures RoomSound(after, id)
  {
    hide RoleKept;
  }

  /** The invariant is kept by every call, whatever writes fail, as long as ids are fresh. */
  lemma StepSound(w: World, call: Call)
    requires Sound(w) && FreshId(w, call)
    ensures Sound(Step(w, call).0)
  {
    hide Sound;
    match call
    case CreateRoom(maxWeeks, newId, save) => CreateKeeps(w, maxWeeks, newId, save);
    case JoinRoom(roomId, name, newId, save) => JoinKeeps(w, roomId, name, newId, save);
    case AssignRole(roomId, playerId, role, save) => AssignKeeps(w, roomId, playerId, role, save);
    case StartGame(roomId, scenarioId, draws, newId, saveRoom, saveSession) =>
      StartKeeps(w, roomId, scenarioId, draws, newId, saveRoom, saveSession);
    case SubmitOrder(roomId, playerId, order, save) => SubmitKeeps(w, roomId, playerId, order, save);
    case AdvanceWeek(roomId, saveSession, saveRoom, delete) => AdvanceKeeps(w, roomId, saveSession, saveRoom, delete);
  }

  lemma {:induction false} RunSound(scenarios: Repository, calls: seq<Call>)
    requires FreshRun(scenarios, calls)
    ensures Sound(After(scenarios, calls))
  {
    hide FreshId, Step;
    if calls != [] {
      RunSound(scenarios, calls[..|calls| - 1]);
      StepSound(After(scenarios, calls[..|calls| - 1]), calls[|calls| - 1]);
    }
  }
}
