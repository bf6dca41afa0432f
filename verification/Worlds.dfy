/** The three stores and every service call as one atomic step between their contents.
    The stores hold values, and each write may fail before or after taking effect.
    Models internal/usecase/room_service.go and internal/usecase/game_service.go. */
module Worlds {
  import opened Common
  import opened Scenarios
  import opened Chain
  import opened Rooms
  import opened WeekDecisions

  datatype Repository = Repository(default: Scenario, byId: map<string, Scenario>)

  datatype World = World(
    rooms: map<string, Room>,
    sessions: map<string, Session>,
    sessionOf: map<string, string>,
    decisions: map<string, WeeklyDecisions>,
    scenarios: Repository)

  /** How one store write ends: it works, or it reports an error without or with effect. */
  datatype Fault = NoFault | LostBefore | LostAfter

  datatype Call =
    | CreateRoom(maxWeeks: int, newId: Option<string>, save: Fault)
    | JoinRoom(roomId: string, name: string, newId: Option<string>, save: Fault)
    | AssignRole(roomId: string, playerId: string, role: Role, save: Fault)
    | StartGame(roomId: string, scenarioId: string, draws: seq<nat>, newId: Option<string>,
                saveRoom: Fault, saveSession: Fault)
    | SubmitOrder(roomId: string, playerId: string, order: int, save: Fault)
    | AdvanceWeek(roomId: string, saveSession: Fault, saveRoom: Fault, delete: Fault)

  datatype Reply =
    | RoomReply(room: Room)
    | SessionReply(session: Session)
    | SnapshotReply(snapshot: Snapshot)
    | WeekReply(week: WeekState)
    | Refused(error: Error)

  // ---------- Stores ----------

  function GetRoom(w: World, roomId: string): Result<Room> {
    if roomId in w.rooms then Ok(w.rooms[roomId]) else Err(RoomNotFound)
  }

  function GetSession(w: World, roomId: string): Result<Session> {
    if roomId !in w.sessionOf then Err(SessionNotFound)
    else if w.sessionOf[roomId] !in w.sessions then Err(SessionNotFound)
    else Ok(w.sessions[w.sessionOf[roomId]])
  }

  function GetDecisions(w: World, roomId: string, week: int): Result<WeeklyDecisions> {
    var key := Key(roomId, week);
    if key in w.decisions then Ok(w.decisions[key]) else Err(WeekDecisionsNotFound)
  }

  function GetScenario(w: World, scenarioId: string): Result<Scenario> {
    if scenarioId == "" then Ok(w.scenarios.default)
    else if scenarioId in w.scenarios.byId then Ok(w.scenarios.byId[scenarioId])
    else Err(RoomNotFound)
  }

  function SaveRoom(w: World, room: Room, f: Fault): World {
    if f.LostBefore? then w else w.(rooms := w.rooms[room.id := room])
  }

  function SaveSession(w: World, s: Session, f: Fault): World {
    if f.LostBefore? then w
    else w.(sessions := w.sessions[s.id := s], sessionOf := w.sessionOf[s.roomId := s.id])
  }

  function SaveDecisions(w: World, d: WeeklyDecisions, f: Fault): World {
    if f.LostBefore? then w else w.(decisions := w.decisions[Key(d.roomId, d.week) := d])
  }

  function DeleteDecisions(w: World, roomId: string, week: int, f: Fault): World {
    if f.LostBefore? then w else w.(decisions := w.decisions - {Key(roomId, week)})
  }

  function PlayableWeek(s: Session): int {
    if s.status.Finished? then s.currentWeek else s.currentWeek + 1
  }

  // ---------- Lobby ----------

  function CreateStep(w: World, maxWeeks: int, newId: Option<string>, save: Fault): (World, Reply) {
    if newId.None? then (w, Refused(IdFailure))
    else if maxWeeks <= 0 then (w, Refused(InvalidMaxWeeks))
    else
      var room := EmptyRoom(newId.value, maxWeeks);
      (SaveRoom(w, room, save), if save.NoFault? then RoomReply(room) else Refused(StoreFailure))
  }

  function JoinStep(w: World, roomId: string, name: string, newId: Option<string>, save: Fault): (World, Reply) {
    var found := GetRoom(w, roomId);
    if found.Err? then (w, Refused(found.error))
    else if newId.None? then (w, Refused(IdFailure))
    else if AddProblem(found.value, name).Some? then (w, Refused(AddProblem(found.value, name).value))
    else
      var room := Added(found.value, Player(newId.value, name, Unset, false));
      (SaveRoom(w, room, save), if save.NoFault? then RoomReply(room) else Refused(StoreFailure))
  }

  function AssignStep(w: World, roomId: string, playerId: string, role: Role, save: Fault): (World, Reply) {
    var found := GetRoom(w, roomId);
    if found.Err? then (w, Refused(found.error))
    else
      var problem := AssignProblem(found.value, playerId, role);
      if problem.Some? then (w, Refused(problem.value))
      else
        var room := Assigned(found.value, playerId, role);
        (SaveRoom(w, room, save), if save.NoFault? then RoomReply(room) else Refused(StoreFailure))
  }

  // ---------- Start ----------

  /** Everything that may refuse a start before the room is touched, and the compiled scenario. */
  function StartScenario(w: World, roomId: string, scenarioId: string, draws: seq<nat>): Result<Scenario> {
    var found := GetRoom(w, roomId);
    if found.Err? then Err(found.error)
    else
      var scenario := GetScenario(w, scenarioId);
      if scenario.Err? then Err(scenario.error)
      else
        var compiled := Materialized(scenario.value, found.value.maxWeeks, draws);
        if compiled.Err? then compiled
        else if StartProblem(found.value).Some? then Err(StartProblem(found.value).value)
        else compiled
  }

  lemma StartScenarioFacts(w: World, roomId: string, scenarioId: string, draws: seq<nat>)
    requires StartScenario(w, roomId, scenarioId, draws).Ok?
    ensures roomId in w.rooms && StartProblem(w.rooms[roomId]).None?
    ensures GetScenario(w, scenarioId).Ok?
    ensures Materialized(GetScenario(w, scenarioId).value, w.rooms[roomId].maxWeeks, draws) ==
            StartScenario(w, roomId, scenarioId, draws)
  {}

  function StartedRoom(room: Room, session: Session): Room
    requires StartProblem(room).None?
  {
    Started(room).(currentWeek := PlayableWeek(session), scenarioId := session.scenario.id)
  }

  function StartStep(w: World, roomId: string, scenarioId: string, draws: seq<nat>, newId: Option<string>,
                     saveRoom: Fault, saveSession: Fault): (World, Reply)
  {
    var compiled := StartScenario(w, roomId, scenarioId, draws);
    if compiled.Err? then (w, Refused(compiled.error))
    else if newId.None? then (w, Refused(IdFailure))
    else
      StartScenarioFacts(w, roomId, scenarioId, draws);
      var room, scenario := w.rooms[roomId], compiled.value;
      if NewSessionProblem(scenario, room.maxWeeks).Some? then
        (w, Refused(NewSessionProblem(scenario, room.maxWeeks).value))
      else
        var session := FreshSession(newId.value, room.id, scenario, room.maxWeeks);
        var w1 := SaveRoom(w, StartedRoom(room, session), saveRoom);
        if !saveRoom.NoFault? then (w1, Refused(StoreFailure))
        else
          (SaveSession(w1, session, saveSession),
           if saveSession.NoFault? then SessionReply(session) else Refused(StoreFailure))
  }

  // ---------- Weeks ----------

  /** The active session and the role a submission is for. */
  function SubmitTarget(w: World, roomId: string, playerId: string, order: int): Result<(Session, Role)> {
    if order < 0 then Err(NegativeDecision(Unset))
    else
      var found := GetRoom(w, roomId);
      if found.Err? then Err(found.error)
      else
        var role := RoleOfPlayer(found.value, playerId);
        if role.Err? then Err(role.error)
        else
          var session := GetSession(w, roomId);
          if session.Err? then Err(session.error)
          else if session.value.status != Active then Err(SessionNotActive)
          else Ok((session.value, role.value))
  }

  function CurrentOrders(w: World, roomId: string, week: int): WeeklyDecisions {
    var stored := GetDecisions(w, roomId, week);
    if stored.Ok? then stored.value else WeeklyDecisions(roomId, week, map[])
  }

  function SubmitStep(w: World, roomId: string, playerId: string, order: int, save: Fault): (World, Reply) {
    var target := SubmitTarget(w, roomId, playerId, order);
    if target.Err? then (w, Refused(target.error))
    else
      var (session, role) := target.value;
      var before := CurrentOrders(w, roomId, PlayableWeek(session));
      var after := before.(orders := before.orders[role := order]);
      (SaveDecisions(w, after, save),
       if save.NoFault? then SnapshotReply(SnapshotOf(after)) else Refused(StoreFailure))
  }

  /** The session and the four orders a week is about to be played with. */
  function AdvanceTarget(w: World, roomId: string): Result<(Session, Decisions)> {
    var found := GetRoom(w, roomId);
    if found.Err? then Err(found.error)
    else
      var session := GetSession(w, roomId);
      if session.Err? then Err(session.error)
      else
        var stored := GetDecisions(w, roomId, PlayableWeek(session.value));
        if stored.Err? then Err(WeekNotReady)
        else if |stored.value.orders| != 4 then Err(WeekNotReady)
        else Ok((session.value, stored.value.orders))
  }

  function AdvanceStep(w: World, roomId: string, saveSession: Fault, saveRoom: Fault, delete: Fault): (World, Reply) {
    var target := AdvanceTarget(w, roomId);
    if target.Err? then (w, Refused(target.error))
    else
      var (session, orders) := target.value;
      if AdvanceProblem(session, orders).Some? then (w, Refused(AdvanceProblem(session, orders).value))
      else
        CommitWeek(w, roomId, session, orders, saveSession, saveRoom, delete)
  }

  /** The three writes that end a week, in order; a failed one stops the rest. */
  function CommitWeek(w: World, roomId: string, session: Session, orders: Decisions,
                      saveSession: Fault, saveRoom: Fault, delete: Fault): (World, Reply)
    requires roomId in w.rooms && Complete(orders)
  {
    var next := Advanced(session, orders);
    var room := w.rooms[roomId].(currentWeek := PlayableWeek(next), status := next.status);
    var w1 := SaveSession(w, next, saveSession);
    if !saveSession.NoFault? then (w1, Refused(StoreFailure))
    else
      var w2 := SaveRoom(w1, room, saveRoom);
      if !saveRoom.NoFault? then (w2, Refused(StoreFailure))
      else
        (DeleteDecisions(w2, roomId, PlayableWeek(session), delete),
         if delete.NoFault? then WeekReply(NextWeek(session, orders)) else Refused(StoreFailure))
  }

  function Step(w: World, call: Call): (World, Reply) {
    match call
    case CreateRoom(maxWeeks, newId, save) => CreateStep(w, maxWeeks, newId, save)
    case JoinRoom(roomId, name, newId, save) => JoinStep(w, roomId, name, newId, save)
    case AssignRole(roomId, playerId, role, save) => AssignStep(w, roomId, playerId, role, save)
    case StartGame(roomId, scenarioId, draws, newId, saveRoom, saveSession) =>
      StartStep(w, roomId, scenarioId, draws, newId, saveRoom, saveSession)
    case SubmitOrder(roomId, playerId, order, save) => SubmitStep(w, roomId, playerId, order, save)
    case AdvanceWeek(roomId, saveSession, saveRoom, delete) => AdvanceStep(w, roomId, saveSession, saveRoom, delete)
  }

  // ---------- Runs ----------

  function EmptyWorld(scenarios: Repository): World {
    World(map[], map[], map[], map[], scenarios)
  }

  predicate FaultFree(call: Call) {
    match call
    case CreateRoom(_, _, save) => save.NoFault?
    case JoinRoom(_, _, _, save) => save.NoFault?
    case AssignRole(_, _, _, save) => save.NoFault?
    case StartGame(_, _, _, _, saveRoom, saveSession) => saveRoom.NoFault? && saveSession.NoFault?
    case SubmitOrder(_, _, _, save) => save.NoFault?
    case AdvanceWeek(_, saveSession, saveRoom, delete) =>
      saveSession.NoFault? && saveRoom.NoFault? && delete.NoFault?
  }

  /** The id generator never repeats an id within its own kind. */
  predicate FreshId(w: World, call: Call) {
    match call
    case CreateRoom(_, newId, _) => newId.Some? ==> newId.value !in w.rooms
    case JoinRoom(roomId, _, newId, _) =>
      newId.Some? && roomId in w.rooms ==>
        forall i :: 0 <= i < |w.rooms[roomId].players| ==> w.rooms[roomId].players[i].id != newId.value
    case StartGame(_, _, _, newId, _, _) => newId.Some? ==> newId.value !in w.sessions
    case _ => true
  }

  /** The world after a run of calls from empty stores. */
  function After(scenarios: Repository, calls: seq<Call>): World {
    if calls == [] then EmptyWorld(scenarios)
    else Step(After(scenarios, calls[..|calls| - 1]), calls[|calls| - 1]).0
  }

  /** A run whose ids are fresh. */
  predicate FreshRun(scenarios: Repository, calls: seq<Call>) {
    calls == [] ||
    (FreshRun(scenarios, calls[..|calls| - 1]) &&
     FreshId(After(scenarios, calls[..|calls| - 1]), calls[|calls| - 1]))
  }

  predicate FaultFreeRun(calls: seq<Call>) {
    forall i :: 0 <= i < |calls| ==> FaultFree(calls[i])
  }
}
