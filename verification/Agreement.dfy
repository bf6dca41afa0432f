/** When writes do not fail, the three stores agree after every call; the guard of the
    service's AdvanceWeek is then all the check its session needs. */
module Agreement {
  import opened Common
  import opened Scenarios
  import opened Chain
  import opened ChainLaws
  import opened Rooms
  import opened WeekDecisions
  import opened Worlds
  import opened WorldLaws
  import opened Failures

  ghost predicate SessionsAgree(w: World) {
    forall id :: id in w.sessions && w.sessions[id].roomId in w.rooms ==>
      var room := w.rooms[w.sessions[id].roomId];
      room.status == w.sessions[id].status && room.currentWeek == PlayableWeek(w.sessions[id])
  }

  ghost predicate RoomsAgree(w: World) {
    forall id :: id in w.rooms && w.rooms[id].status != Waiting ==> GetSession(w, id).Ok?
  }

  /** Orders are kept only for the week a running session is about to play. */
  ghost predicate DecisionsAgree(w: World) {
    forall key :: key in w.decisions ==>
      var found := GetSession(w, w.decisions[key].roomId);
      && found.Ok? && found.value.status == Active
      && w.decisions[key].week == PlayableWeek(found.value)
  }

  ghost predicate Agrees(w: World) {
    SessionsAgree(w) && RoomsAgree(w) && DecisionsAgree(w)
  }

  lemma LobbySaveAgrees(w: World, room: Room)
    requires Sound(w) && Agrees(w) && room.status == Waiting
    requires room.id in w.rooms ==> w.rooms[room.id].status == Waiting
    ensures Agrees(SaveRoom(w, room, NoFault))
  {
    hide LobbyOk, Kept, TableOk, OrdersSound, Key, PlayableWeek;
    forall id | id in w.sessions ensures w.sessions[id].roomId != room.id {
      SessionOfId(w, id);
    }
  }

  lemma SessionNotWaiting(w: World, roomId: string)
    requires Sound(w) && GetSession(w, roomId).Ok?
    ensures roomId in w.rooms && w.rooms[roomId].status != Waiting
    ensures GetSession(w, roomId).value.roomId == roomId
  {
    hide LobbyOk, Kept, TableOk, DecisionsSound;
  }

  lemma StartAgrees(w: World, roomId: string, scenarioId: string, draws: seq<nat>, newId: Option<string>)
    requires Sound(w) && Agrees(w) && (newId.Some? ==> newId.value !in w.sessions)
    ensures Agrees(StartStep(w, roomId, scenarioId, draws, newId, NoFault, NoFault).0)
  {
    hide LobbyOk, Kept, TableOk, OrdersSound, Key, StartScenario, FreshSession, Completed;
    var compiled := StartScenario(w, roomId, scenarioId, draws);
    if compiled.Ok? && newId.Some? {
      StartScenarioFacts(w, roomId, scenarioId, draws);
      var room := w.rooms[roomId];
      var session := FreshSession(newId.value, room.id, compiled.value, room.maxWeeks);
      FreshFields(newId.value, room.id, compiled.value, room.maxWeeks);
      NewSessionAgrees(w, StartedRoom(room, session), session);
    }
  }

  lemma FreshFields(id: string, roomId: string, scenario: Scenario, maxWeeks: int)
    ensures var s := FreshSession(id, roomId, scenario, maxWeeks);
            s.id == id && s.roomId == roomId && s.status == Active
  {}

  lemma NewSessionAgrees(w: World, room: Room, s: Session)
    requires Sound(w) && Agrees(w) && s.roomId == room.id && s.id !in w.sessions
    requires room.id in w.rooms && w.rooms[room.id].status == Waiting
    requires room.status == s.status == Active && room.currentWeek == PlayableWeek(s)
    ensures Agrees(SaveSession(SaveRoom(w, room, NoFault), s, NoFault))
  {
    hide RoomSound, Kept, TableOk, OrdersSound, Key, PlayableWeek, DecisionsSound, DecisionsAgree;
    forall id | id in w.sessions ensures w.sessions[id].roomId != room.id {
      SessionOfId(w, id);
    }
    NewSessionDecisions(w, room, s);
  }

  lemma NewSessionDecisions(w: World, room: Room, s: Session)
    requires Sound(w) && DecisionsAgree(w) && s.roomId == room.id && s.id !in w.sessions
    requires room.id in w.rooms && w.rooms[room.id].status == Waiting
    ensures DecisionsAgree(SaveSession(SaveRoom(w, room, NoFault), s, NoFault))
  {
    hide RoomSound, Kept, TableOk, OrdersSound, Key, PlayableWeek;
    var v := SaveSession(SaveRoom(w, room, NoFault), s, NoFault);
    forall key | key in v.decisions
      ensures GetSession(v, v.decisions[key].roomId) == GetSession(w, w.decisions[key].roomId)
    {
      SessionNotWaiting(w, w.decisions[key].roomId);
    }
  }

  lemma SubmitAgrees(w: World, roomId: string, playerId: string, order: int)
    requires Sound(w) && Agrees(w)
    ensures Agrees(SubmitStep(w, roomId, playerId, order, NoFault).0)
  {
    hide LobbyOk, Kept, TableOk, OrdersSound, Key, PlayableWeek;
    if SubmitTarget(w, roomId, playerId, order).Ok? {
      CurrentOrdersSound(w, roomId, PlayableWeek(GetSession(w, roomId).value));
    }
  }

  /** After a week is played nothing is stored for the room any more. */
  lemma PlayedWeekForgotten(w: World, roomId: string, key: string)
    requires Sound(w) && Agrees(w) && GetSession(w, roomId).Ok?
    requires key in w.decisions && key != Key(roomId, PlayableWeek(GetSession(w, roomId).value))
    ensures w.decisions[key].roomId != roomId
  {
    hide RoomsSound, SessionsSound, IndexSound, OrdersSound, SessionsAgree, RoomsAgree, PlayableWeek;
    hide Key;
  }

  lemma CommitAgrees(w: World, roomId: string, session: Session, orders: Decisions)
    requires Sound(w) && Agrees(w) && GetSession(w, roomId) == Ok(session) && roomId in w.rooms
    requires AdvanceProblem(session, orders).None?
    ensures Agrees(CommitWeek(w, roomId, session, orders, NoFault, NoFault, NoFault).0)
  {
    hide Kept, TableOk, OrdersSound, Key, Advanced, NextWeek, LobbyOk, PlayableWeek, SessionsAgree, RoomsAgree,
      DecisionsAgree;
    SessionNotWaiting(w, roomId);
    CommitSessionsAgree(w, roomId, session, orders);
    forall key | key in CommitWeek(w, roomId, session, orders, NoFault, NoFault, NoFault).0.decisions
      ensures w.decisions[key].roomId != roomId
    {
      PlayedWeekForgotten(w, roomId, key);
    }
    CommitDecisionsAgree(w, roomId, session, orders);
  }

  /** The played session belongs to no other room. */
  lemma OtherRooms(w: World, roomId: string, other: string)
    requires Sound(w) && GetSession(w, roomId).Ok? && other in w.sessions && other != w.sessionOf[roomId]
    ensures w.sessions[other].roomId != roomId
  {
    hide RoomsSound, DecisionsSound, SessionSound;
  }

  lemma CommitSessionsAgree(w: World, roomId: string, session: Session, orders: Decisions)
    requires Sound(w) && SessionsAgree(w) && RoomsAgree(w)
    requires GetSession(w, roomId) == Ok(session) && roomId in w.rooms && AdvanceProblem(session, orders).None?
    ensures var v := CommitWeek(w, roomId, session, orders, NoFault, NoFault, NoFault).0;
            SessionsAgree(v) && RoomsAgree(v)
  {
    hide Kept, TableOk, DecisionsSound, Key, Advanced, NextWeek, LobbyOk, PlayableWeek;
    SessionOfId(w, w.sessionOf[roomId]);
    SessionNotWaiting(w, roomId);
    NextSessionSound(session, orders, session.id, w.rooms[roomId]);
    NextStatus(session, orders);
    forall other | other in w.sessions && other != w.sessionOf[roomId] ensures w.sessions[other].roomId != roomId {
      OtherRooms(w, roomId, other);
    }
  }

  lemma CommitDecisionsAgree(w: World, roomId: string, session: Session, orders: Decisions)
    requires Sound(w) && DecisionsAgree(w)
    requires GetSession(w, roomId) == Ok(session) && roomId in w.rooms && AdvanceProblem(session, orders).None?
    requires var v := CommitWeek(w, roomId, session, orders, NoFault, NoFault, NoFault).0;
             forall key :: key in v.decisions ==> w.decisions[key].roomId != roomId
    ensures DecisionsAgree(CommitWeek(w, roomId, session, orders, NoFault, NoFault, NoFault).0)
  {
    hide Kept, TableOk, Key, Advanced, NextWeek, LobbyOk, PlayableWeek, OrdersSound;
    SessionOfId(w, w.sessionOf[roomId]);
    NextSessionSound(session, orders, session.id, w.rooms[roomId]);
    var v := CommitWeek(w, roomId, session, orders, NoFault, NoFault, NoFault).0;
    forall key | key in v.decisions
      ensures GetSession(v, v.decisions[key].roomId) == GetSession(w, w.decisions[key].roomId)
    {
      SessionNotWaiting(w, w.decisions[key].roomId);
    }
  }

  lemma NextStatus(s: Session, orders: Decisions)
    requires AdvanceProblem(s, orders).None?
    ensures Advanced(s, orders).status != Waiting
  {}

  lemma AdvanceAgrees(w: World, roomId: string)
    requires Sound(w) && Agrees(w)
    ensures Agrees(AdvanceStep(w, roomId, NoFault, NoFault, NoFault).0)
  {
    hide Sound, Agrees, CommitWeek, AdvanceProblem;
    var target := AdvanceTarget(w, roomId);
    if target.Ok? && AdvanceProblem(target.value.0, target.value.1).None? {
      CommitAgrees(w, roomId, target.value.0, target.value.1);
    }
  }

  lemma StepAgrees(w: World, call: Call)
    requires Sound(w) && Agrees(w) && FreshId(w, call) && FaultFree(call)
    ensures Agrees(Step(w, call).0)
  {
    hide Agrees, RoomsSound, SessionsSound, IndexSound, DecisionsSound;
    match call
    case CreateRoom(maxWeeks, newId, _) =>
      if newId.Some? && maxWeeks > 0 {
        LobbySaveAgrees(w, EmptyRoom(newId.value, maxWeeks));
      }
    case JoinRoom(roomId, name, newId, _) =>
      JoinAgrees(w, roomId, name, newId);
    case AssignRole(roomId, playerId, role, _) =>
      AssignAgrees(w, roomId, playerId, role);
    case StartGame(roomId, scenarioId, draws, newId, _, _) =>
      StartAgrees(w, roomId, scenarioId, draws, newId);
    case SubmitOrder(roomId, playerId, order, _) =>
      SubmitAgrees(w, roomId, playerId, order);
    case AdvanceWeek(roomId, _, _, _) =>
      AdvanceAgrees(w, roomId);
  }

  lemma JoinAgrees(w: World, roomId: string, name: string, newId: Option<string>)
    requires Sound(w) && Agrees(w)
    ensures Agrees(JoinStep(w, roomId, name, newId, NoFault).0)
  {
    hide Agrees, LobbyOk, SessionsSound, IndexSound, DecisionsSound;
    if roomId in w.rooms && newId.Some? && AddProblem(w.rooms[roomId], name).None? {
      LobbySaveAgrees(w, Added(w.rooms[roomId], Player(newId.value, name, Unset, false)));
    }
  }

  lemma AssignAgrees(w: World, roomId: string, playerId: string, role: Role)
    requires Sound(w) && Agrees(w)
    ensures Agrees(AssignStep(w, roomId, playerId, role, NoFault).0)
  {
    hide Agrees, LobbyOk, SessionsSound, IndexSound, DecisionsSound;
    if roomId in w.rooms && AssignProblem(w.rooms[roomId], playerId, role).None? {
      LobbySaveAgrees(w, Assigned(w.rooms[roomId], playerId, role));
    }
  }

  /** The stores agree after every run whose writes succeed and whose ids are fresh. */
  lemma {:induction false} RunAgrees(scenarios: Repository, calls: seq<Call>)
    requires FreshRun(scenarios, calls) && FaultFreeRun(calls)
    ensures Sound(After(scenarios, calls)) && Agrees(After(scenarios, calls))
  {
    hide FreshId, Step, FaultFree, Sound;
    RunSound(scenarios, calls);
    if calls != [] {
      var front, last := calls[..|calls| - 1], calls[|calls| - 1];
      RunSound(scenarios, front);
      RunAgrees(scenarios, front);
      assert FaultFree(last);
      StepAgrees(After(scenarios, front), last);
    }
  }

  // ---------- The guard of AdvanceWeek ----------

  /** Counting four orders is the same as being ready, and once past that count the session
      never refuses: the only refusals are a missing room, a missing session and a week
      whose orders are not complete. */
  lemma AdvanceSucceedsIff(w: World, roomId: string)
    requires Sound(w) && Agrees(w)
    ensures var reply := AdvanceStep(w, roomId, NoFault, NoFault, NoFault).1;
            && (reply.WeekReply? <==>
                  && GetRoom(w, roomId).Ok? && GetSession(w, roomId).Ok?
                  && SnapshotOf(CurrentOrders(w, roomId, PlayableWeek(GetSession(w, roomId).value))).ready)
            && (!reply.WeekReply? ==>
                  reply == Refused(RoomNotFound) || reply == Refused(SessionNotFound) || reply == Refused(WeekNotReady))
  {
    hide Sound, Agrees, GetDecisions, CurrentOrders, PlayableWeek, SnapshotOf;
    if GetRoom(w, roomId).Ok? && GetSession(w, roomId).Ok? {
      ReadyIffTarget(w, roomId);
      if AdvanceTarget(w, roomId).Ok? {
        TargetPlays(w, roomId);
      }
    }
  }

  lemma ReadyIffTarget(w: World, roomId: string)
    requires Sound(w) && GetRoom(w, roomId).Ok? && GetSession(w, roomId).Ok?
    ensures AdvanceTarget(w, roomId).Ok? <==>
            SnapshotOf(CurrentOrders(w, roomId, PlayableWeek(GetSession(w, roomId).value))).ready
    ensures AdvanceTarget(w, roomId).Err? ==> AdvanceTarget(w, roomId).error == WeekNotReady
  {
    hide Sound, SnapshotOf, OrdersSound;
    var week := PlayableWeek(GetSession(w, roomId).value);
    CurrentOrdersSound(w, roomId, week);
    KnownOrders(CurrentOrders(w, roomId, week).orders);
    ReadyMeansFour(CurrentOrders(w, roomId, week));
  }

  lemma KnownOrders(orders: Decisions)
    requires OrdersSound(orders)
    ensures KnownRolesOnly(orders)
  {}

  lemma TargetPlays(w: World, roomId: string)
    requires Sound(w) && Agrees(w) && AdvanceTarget(w, roomId).Ok?
    ensures AdvanceProblem(AdvanceTarget(w, roomId).value.0, AdvanceTarget(w, roomId).value.1).None?
  {
    hide Sound, Agrees, Key, PlayableWeek;
    AdvanceTargetFacts(w, roomId);
    RunningSession(w, roomId);
  }

  /** A session that has orders stored for its week is active and has weeks left. */
  lemma RunningSession(w: World, roomId: string)
    requires Sound(w) && Agrees(w) && GetSession(w, roomId).Ok?
    requires Key(roomId, PlayableWeek(GetSession(w, roomId).value)) in w.decisions
    ensures var s := GetSession(w, roomId).value; s.status == Active && s.currentWeek < s.maxWeeks
  {
    hide SessionsAgree, RoomsAgree, RoomSound, TableOk, RoleKept, Key;
    var s := GetSession(w, roomId).value;
    var d := w.decisions[Key(roomId, PlayableWeek(s))];
    KeyInjective(roomId, PlayableWeek(s), d.roomId, d.week);
    SessionOfId(w, w.sessionOf[roomId]);
  }
}
