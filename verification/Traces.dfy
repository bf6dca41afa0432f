/** The history of a game, read against the submissions that were accepted: each recorded
    order is the last one its player had accepted since the previous week was played. */
module Traces {
  import opened Common
  import opened Chain
  import opened ChainLaws
  import opened Rooms
  import opened WeekDecisions
  import opened Worlds
  import opened WorldLaws
  import opened Failures
  import opened Agreement

  // ---------- What a run's log says, without looking at any store ----------

  ghost function ReplyAt(scenarios: Repository, calls: seq<Call>, i: nat): Reply
    requires i < |calls|
  {
    Step(WorldAt(scenarios, calls, i), calls[i]).1
  }

  ghost predicate IsSubmission(call: Call, reply: Reply, roomId: string) {
    call.SubmitOrder? && call.roomId == roomId && reply.SnapshotReply?
  }

  ghost predicate IsAdvance(call: Call, reply: Reply, roomId: string) {
    call.AdvanceWeek? && call.roomId == roomId && reply.WeekReply?
  }

  /** The last order accepted from the player among the first n calls, since the room's
      last successful advance. */
  ghost function LastAccepted(scenarios: Repository, calls: seq<Call>, roomId: string, playerId: string, n: nat)
    : Option<int>
    requires n <= |calls|
  {
    if n == 0 then None
    else if IsAdvance(calls[n - 1], ReplyAt(scenarios, calls, n - 1), roomId) then None
    else if IsSubmission(calls[n - 1], ReplyAt(scenarios, calls, n - 1), roomId) &&
            calls[n - 1].playerId == playerId then
      Some(calls[n - 1].order)
    else LastAccepted(scenarios, calls, roomId, playerId, n - 1)
  }

  // ---------- What one call does to one room's game ----------

  ghost function OrderIn(orders: Decisions, role: Role): Option<int> {
    if role in orders then Some(orders[role]) else None
  }

  ghost function Pending(w: World, roomId: string): Decisions
    requires GetSession(w, roomId).Ok?
  {
    CurrentOrders(w, roomId, PlayableWeek(GetSession(w, roomId).value)).orders
  }

  ghost predicate Healthy(w: World) {
    Sound(w) && Agrees(w)
  }

  ghost predicate GameUntouched(w: World, v: World, roomId: string) {
    && GetSession(v, roomId) == GetSession(w, roomId)
    && roomId in w.rooms && roomId in v.rooms && v.rooms[roomId].players == w.rooms[roomId].players
    && forall week :: CurrentOrders(v, roomId, week) == CurrentOrders(w, roomId, week)
  }

  lemma OtherRoomSaved(w: World, roomId: string, room: Room)
    requires roomId in w.rooms && room.id != roomId
    ensures GameUntouched(w, SaveRoom(w, room, NoFault), roomId)
  {}

  lemma QuietLobby(w: World, call: Call, roomId: string)
    requires Sound(w) && FreshId(w, call) && FaultFree(call) && GetSession(w, roomId).Ok?
    requires call.CreateRoom? || call.JoinRoom? || call.AssignRole?
    ensures GameUntouched(w, Step(w, call).0, roomId)
  {
    hide LobbyOk, SessionSound, DecisionsSound, GameUntouched;
    SessionNotWaiting(w, roomId);
    UntouchedRefl(w, roomId);
    match call
    case CreateRoom(maxWeeks, newId, _) =>
      if newId.Some? {
        OtherRoomSaved(w, roomId, EmptyRoom(newId.value, maxWeeks));
      }
    case JoinRoom(other, name, newId, _) =>
      if other in w.rooms && other != roomId && newId.Some? {
        OtherRoomSaved(w, roomId, Added(w.rooms[other], Player(newId.value, name, Unset, false)));
      }
    case AssignRole(other, playerId, role, _) =>
      if other in w.rooms && other != roomId && AssignProblem(w.rooms[other], playerId, role).None? {
        OtherRoomSaved(w, roomId, Assigned(w.rooms[other], playerId, role));
      }
  }

  lemma UntouchedRefl(w: World, roomId: string)
    requires roomId in w.rooms
    ensures GameUntouched(w, w, roomId)
  {}

  lemma UntouchedTrans(u: World, v: World, w: World, roomId: string)
    requires GameUntouched(u, v, roomId) && GameUntouched(v, w, roomId)
    ensures GameUntouched(u, w, roomId)
  {
    hide GetSession, CurrentOrders;
  }

  lemma OtherSessionSaved(w: World, roomId: string, s: Session)
    requires Sound(w) && GetSession(w, roomId).Ok? && s.roomId != roomId
    requires s.id in w.sessions ==> w.sessions[s.id].roomId == s.roomId
    ensures GameUntouched(w, SaveSession(w, s, NoFault), roomId)
  {
    hide RoomsSound, DecisionsSound, SessionSound, Key;
    SessionNotWaiting(w, roomId);
  }

  lemma OtherDecisionsSaved(w: World, roomId: string, d: WeeklyDecisions)
    requires roomId in w.rooms && d.roomId != roomId
    ensures GameUntouched(w, SaveDecisions(w, d, NoFault), roomId)
  {
    forall week ensures Key(roomId, week) != Key(d.roomId, d.week) {
      if Key(roomId, week) == Key(d.roomId, d.week) {
        KeyInjective(roomId, week, d.roomId, d.week);
      }
    }
  }

  lemma OtherDecisionsDeleted(w: World, roomId: string, other: string, week: int)
    requires roomId in w.rooms && other != roomId
    ensures GameUntouched(w, DeleteDecisions(w, other, week, NoFault), roomId)
  {
    forall v ensures Key(roomId, v) != Key(other, week) {
      if Key(roomId, v) == Key(other, week) {
        KeyInjective(roomId, v, other, week);
      }
    }
  }

  lemma QuietStart(w: World, roomId: string, other: string, scenarioId: string, draws: seq<nat>, newId: Option<string>)
    requires Sound(w) && GetSession(w, roomId).Ok? && (newId.Some? ==> newId.value !in w.sessions)
    ensures GameUntouched(w, StartStep(w, other, scenarioId, draws, newId, NoFault, NoFault).0, roomId)
  {
    hide SessionsSound, IndexSound, DecisionsSound, LobbyOk, StartScenario, FreshSession, Completed, GameUntouched;
    SessionNotWaiting(w, roomId);
    UntouchedRefl(w, roomId);
    var compiled := StartScenario(w, other, scenarioId, draws);
    if compiled.Ok? && newId.Some? {
      StartScenarioFacts(w, other, scenarioId, draws);
      var room := w.rooms[other];
      var session := FreshSession(newId.value, room.id, compiled.value, room.maxWeeks);
      FreshFields(newId.value, room.id, compiled.value, room.maxWeeks);
      OtherRoomSaved(w, roomId, StartedRoom(room, session));
      SessionSavedAfterRoom(w, roomId, StartedRoom(room, session), session);
    }
  }

  lemma SessionSavedAfterRoom(w: World, roomId: string, room: Room, s: Session)
    requires GetSession(w, roomId).Ok? && roomId in w.rooms && room.id != roomId
    requires s.roomId != roomId && s.id !in w.sessions
    ensures GameUntouched(w, SaveSession(SaveRoom(w, room, NoFault), s, NoFault), roomId)
  {}

  lemma QuietSubmit(w: World, roomId: string, other: string, playerId: string, order: int)
    requires Sound(w) && GetSession(w, roomId).Ok?
    requires other != roomId || !SubmitStep(w, other, playerId, order, NoFault).1.SnapshotReply?
    ensures GameUntouched(w, SubmitStep(w, other, playerId, order, NoFault).0, roomId)
  {
    hide SubmitTarget, GameUntouched, Sound;
    SessionNotWaiting(w, roomId);
    UntouchedRefl(w, roomId);
    var target := SubmitTarget(w, other, playerId, order);
    if target.Ok? && other != roomId {
      var week := PlayableWeek(target.value.0);
      CurrentOrdersSound(w, other, week);
      var before := CurrentOrders(w, other, week);
      OtherDecisionsSaved(w, roomId, before.(orders := before.orders[target.value.1 := order]));
    }
  }

  lemma QuietAdvance(w: World, roomId: string, other: string)
    requires Sound(w) && GetSession(w, roomId).Ok?
    requires other != roomId || !AdvanceStep(w, other, NoFault, NoFault, NoFault).1.WeekReply?
    ensures GameUntouched(w, AdvanceStep(w, other, NoFault, NoFault, NoFault).0, roomId)
  {
    hide AdvanceTarget, GameUntouched, Advanced, NextWeek, RoomsSound, DecisionsSound, SessionSound;
    SessionNotWaiting(w, roomId);
    UntouchedRefl(w, roomId);
    if other != roomId && AdvanceTarget(w, other).Ok? {
      AdvanceTargetFacts(w, other);
      var (session, orders) := AdvanceTarget(w, other).value;
      if AdvanceProblem(session, orders).None? {
        CommitElsewhere(w, roomId, other, session, orders);
      }
    }
  }

  lemma CommitElsewhere(w: World, roomId: string, other: string, session: Session, orders: Decisions)
    requires Sound(w) && GetSession(w, roomId).Ok? && other != roomId
    requires GetSession(w, other) == Ok(session) && AdvanceProblem(session, orders).None?
    ensures other in w.rooms
    ensures GameUntouched(w, CommitWeek(w, other, session, orders, NoFault, NoFault, NoFault).0, roomId)
  {
    hide Advanced, NextWeek, DecisionsSound, Kept, TableOk, LobbyOk, GameUntouched, PlayableWeek;
    SessionNotWaiting(w, other);
    SessionOfId(w, w.sessionOf[other]);
    var next := Advanced(session, orders);
    NextSessionSound(session, orders, session.id, w.rooms[other]);
    var room := w.rooms[other].(currentWeek := PlayableWeek(next), status := next.status);
    OtherSessionSaved(w, roomId, next);
    SessionNotWaiting(w, roomId);
    var w1 := SaveSession(w, next, NoFault);
    OtherRoomSaved(w1, roomId, room);
    OtherDecisionsDeleted(SaveRoom(w1, room, NoFault), roomId, other, PlayableWeek(session));
    UntouchedTrans(w, w1, SaveRoom(w1, room, NoFault), roomId);
    UntouchedTrans(w, SaveRoom(w1, room, NoFault),
                  DeleteDecisions(SaveRoom(w1, room, NoFault), other, PlayableWeek(session), NoFault), roomId);
  }

  /** A call that neither submits to a running game nor plays its week leaves it alone. */
  lemma QuietStep(w: World, call: Call, roomId: string)
    requires Sound(w) && FreshId(w, call) && FaultFree(call) && GetSession(w, roomId).Ok?
    requires !IsSubmission(call, Step(w, call).1, roomId) && !IsAdvance(call, Step(w, call).1, roomId)
    ensures GameUntouched(w, Step(w, call).0, roomId)
  {
    hide GameUntouched, Sound;
    match call
    case CreateRoom(_, _, _) => QuietLobby(w, call, roomId);
    case JoinRoom(_, _, _, _) => QuietLobby(w, call, roomId);
    case AssignRole(_, _, _, _) => QuietLobby(w, call, roomId);
    case StartGame(other, scenarioId, draws, newId, _, _) => QuietStart(w, roomId, other, scenarioId, draws, newId);
    case SubmitOrder(other, playerId, order, _) => QuietSubmit(w, roomId, other, playerId, order);
    case AdvanceWeek(other, _, _, _) => QuietAdvance(w, roomId, other);
  }

  /** An accepted submission sets the order of the player's role and nothing else. */
  lemma SubmissionStep(w: World, roomId: string, playerId: string, order: int)
    requires Sound(w) && SubmitStep(w, roomId, playerId, order, NoFault).1.SnapshotReply?
    ensures GetSession(w, roomId).Ok? && roomId in w.rooms && RoleOfPlayer(w.rooms[roomId], playerId).Ok?
    ensures var v := SubmitStep(w, roomId, playerId, order, NoFault).0;
            && GetSession(v, roomId) == GetSession(w, roomId) && v.rooms == w.rooms
            && Pending(v, roomId) == Pending(w, roomId)[RoleOfPlayer(w.rooms[roomId], playerId).value := order]
  {
    hide Sound, Key, PlayableWeek;
    CurrentOrdersSound(w, roomId, PlayableWeek(GetSession(w, roomId).value));
  }

  /** A played week leaves the room's players alone and starts from no orders. */
  lemma AdvanceStepFacts(w: World, roomId: string)
    requires Healthy(w) && AdvanceStep(w, roomId, NoFault, NoFault, NoFault).1.WeekReply?
    ensures GetSession(w, roomId).Ok? && roomId in w.rooms && Complete(Pending(w, roomId))
    ensures var s, v := GetSession(w, roomId).value, AdvanceStep(w, roomId, NoFault, NoFault, NoFault).0;
            && AdvanceStep(w, roomId, NoFault, NoFault, NoFault).1 == WeekReply(NextWeek(s, Pending(w, roomId)))
            && GetSession(v, roomId) == Ok(Advanced(s, Pending(w, roomId)))
            && roomId in v.rooms && v.rooms[roomId].players == w.rooms[roomId].players
            && Pending(v, roomId) == map[]
  {
    hide RoomsSound, OrdersSound, Kept, TableOk, LobbyOk, Advanced, NextWeek, Key, AdvanceTarget, SessionsAgree,
      RoomsAgree, IndexSound;
    TargetOfAdvance(w, roomId);
    AdvanceTargetFacts(w, roomId);
    var (s, orders) := AdvanceTarget(w, roomId).value;
    SessionOfId(w, w.sessionOf[roomId]);
    SessionNotWaiting(w, roomId);
    NextSessionSound(s, orders, s.id, w.rooms[roomId]);
    var next := Advanced(s, orders);
    NothingStoredNext(w, roomId, s, next);
  }

  lemma TargetOfAdvance(w: World, roomId: string)
    requires AdvanceStep(w, roomId, NoFault, NoFault, NoFault).1.WeekReply?
    ensures AdvanceTarget(w, roomId).Ok?
    ensures AdvanceProblem(AdvanceTarget(w, roomId).value.0, AdvanceTarget(w, roomId).value.1).None?
    ensures GetDecisions(w, roomId, PlayableWeek(GetSession(w, roomId).value)).Ok?
  {}

  lemma NothingStoredNext(w: World, roomId: string, s: Session, next: Session)
    requires Healthy(w) && GetSession(w, roomId) == Ok(s) && next.currentWeek == s.currentWeek + 1
    requires s.status == Active
    ensures Key(roomId, PlayableWeek(next)) in w.decisions ==>
              Key(roomId, PlayableWeek(next)) == Key(roomId, PlayableWeek(s))
  {
    hide RoomsSound, SessionsSound, IndexSound, OrdersSound, SessionsAgree, RoomsAgree, Key;
    var key := Key(roomId, PlayableWeek(next));
    if key in w.decisions {
      KeyInjective(roomId, PlayableWeek(next), w.decisions[key].roomId, w.decisions[key].week);
    }
  }

  /** A room without a session has nothing stored, so a new game starts from no orders. */
  lemma NoSessionNoOrders(w: World, roomId: string, week: int)
    requires Sound(w) && GetSession(w, roomId).Err?
    ensures Key(roomId, week) !in w.decisions
  {
    hide RoomsSound, SessionsSound, IndexSound, OrdersSound, Key;
    if Key(roomId, week) in w.decisions {
      var d := w.decisions[Key(roomId, week)];
      KeyInjective(roomId, week, d.roomId, d.week);
      assert false;
    }
  }

  lemma SessionKeysStay(w: World, call: Call)
    requires Sound(w) && (call.SubmitOrder? || call.AdvanceWeek?)
    ensures Step(w, call).0.sessions.Keys == w.sessions.Keys && Step(w, call).0.sessionOf == w.sessionOf
  {
    hide Sound, Key, AdvanceTarget, SubmitTarget, CommitWeek, AdvanceProblem;
    if call.AdvanceWeek? && AdvanceTarget(w, call.roomId).Ok? {
      AdvanceTargetFacts(w, call.roomId);
      var (s, orders) := AdvanceTarget(w, call.roomId).value;
      if AdvanceProblem(s, orders).None? {
        CommitKeepsKeys(w, call.roomId, s, orders, call.saveSession, call.saveRoom, call.delete);
      }
    }
  }

  lemma CommitKeepsKeys(w: World, roomId: string, s: Session, orders: Decisions,
                        saveSession: Fault, saveRoom: Fault, delete: Fault)
    requires Sound(w) && GetSession(w, roomId) == Ok(s) && AdvanceProblem(s, orders).None?
    ensures roomId in w.rooms
    ensures var v := CommitWeek(w, roomId, s, orders, saveSession, saveRoom, delete).0;
            v.sessions.Keys == w.sessions.Keys && v.sessionOf == w.sessionOf
  {
    hide RoomsSound, DecisionsSound, Kept, TableOk, LobbyOk, Key, Advanced, NextWeek, AdvanceProblem;
    SessionOfId(w, w.sessionOf[roomId]);
    SessionNotWaiting(w, roomId);
    NextSessionSound(s, orders, s.id, w.rooms[roomId]);
    var next := Advanced(s, orders);
    assert w.sessions[next.id := next].Keys == w.sessions.Keys;
    assert w.sessionOf[next.roomId := next.id] == w.sessionOf;
  }

  lemma NewGameEmpty(w: World, call: Call, roomId: string)
    requires Sound(w) && GetSession(w, roomId).Err?
    ensures var v := Step(w, call).0; GetSession(v, roomId).Ok? ==> Pending(v, roomId) == map[]
  {
    hide Sound, Key, StartScenario, FreshSession, Started, AddProblem, AssignProblem, SubmitStep, AdvanceStep;
    var v := Step(w, call).0;
    if call.SubmitOrder? || call.AdvanceWeek? {
      SessionKeysStay(w, call);
    } else if GetSession(v, roomId).Ok? {
      NoSessionNoOrders(w, roomId, PlayableWeek(GetSession(v, roomId).value));
    }
  }

  // ---------- The store of pending orders refines the log ----------

  ghost predicate PendingRefines(scenarios: Repository, calls: seq<Call>, roomId: string, n: nat)
    requires n <= |calls|
  {
    var w := WorldAt(scenarios, calls, n);
    if GetSession(w, roomId).Ok? then
      && roomId in w.rooms
      && forall k :: 0 <= k < |w.rooms[roomId].players| ==>
           var player := w.rooms[roomId].players[k];
           OrderIn(Pending(w, roomId), player.role) == LastAccepted(scenarios, calls, roomId, player.id, n)
    else
      forall id :: LastAccepted(scenarios, calls, roomId, id, n).None?
  }

  lemma HealthyAt(scenarios: Repository, calls: seq<Call>, n: nat)
    requires FreshRun(scenarios, calls) && FaultFreeRun(calls) && n <= |calls|
    ensures Healthy(WorldAt(scenarios, calls, n))
  {
    hide FreshRun, Sound, Agrees, After;
    RunPrefix(scenarios, calls, n);
    RunAgrees(scenarios, calls[..n]);
  }

  lemma SeatedSubmission(players: seq<Player>, playerId: string, k: nat)
    requires IdsDistinct(players) && Bijective(players) && k < |players|
    requires RoleFrom(players, playerId, 0).Ok?
    ensures players[k].id == playerId <==> players[k].role == RoleFrom(players, playerId, 0).value
  {
    var holder := RoleHolder(players, playerId, 0);
  }

  lemma RefinesSubmission(scenarios: Repository, calls: seq<Call>, roomId: string, n: nat)
    requires n < |calls| && Healthy(WorldAt(scenarios, calls, n)) && PendingRefines(scenarios, calls, roomId, n)
    requires FaultFree(calls[n]) && IsSubmission(calls[n], ReplyAt(scenarios, calls, n), roomId)
    requires WorldAt(scenarios, calls, n + 1) == Step(WorldAt(scenarios, calls, n), calls[n]).0
    ensures PendingRefines(scenarios, calls, roomId, n + 1)
  {
    hide WorldAt, Sound, Agrees, Pending, SubmitStep;
    var w, call := WorldAt(scenarios, calls, n), calls[n];
    SubmissionStep(w, roomId, call.playerId, call.order);
    SeatsSettled(w, roomId);
    forall k | 0 <= k < |w.rooms[roomId].players|
      ensures w.rooms[roomId].players[k].id == call.playerId <==>
              w.rooms[roomId].players[k].role == RoleOfPlayer(w.rooms[roomId], call.playerId).value
    {
      SeatedSubmission(w.rooms[roomId].players, call.playerId, k);
    }
  }

  lemma SeatsSettled(w: World, roomId: string)
    requires Sound(w) && GetSession(w, roomId).Ok?
    ensures roomId in w.rooms && IdsDistinct(w.rooms[roomId].players) && Bijective(w.rooms[roomId].players)
  {
    hide SessionsSound, IndexSound, DecisionsSound;
    SessionNotWaiting(w, roomId);
  }

  lemma RefinesAdvance(scenarios: Repository, calls: seq<Call>, roomId: string, n: nat)
    requires n < |calls| && Healthy(WorldAt(scenarios, calls, n))
    requires FaultFree(calls[n]) && IsAdvance(calls[n], ReplyAt(scenarios, calls, n), roomId)
    requires WorldAt(scenarios, calls, n + 1) == Step(WorldAt(scenarios, calls, n), calls[n]).0
    ensures PendingRefines(scenarios, calls, roomId, n + 1)
  {
    hide WorldAt, Healthy, Pending, AdvanceStep, Advanced, NextWeek;
    AdvanceStepFacts(WorldAt(scenarios, calls, n), roomId);
  }

  lemma RefinesQuiet(scenarios: Repository, calls: seq<Call>, roomId: string, n: nat)
    requires n < |calls| && Healthy(WorldAt(scenarios, calls, n)) && PendingRefines(scenarios, calls, roomId, n)
    requires FaultFree(calls[n]) && FreshId(WorldAt(scenarios, calls, n), calls[n])
    requires !IsSubmission(calls[n], ReplyAt(scenarios, calls, n), roomId)
    requires !IsAdvance(calls[n], ReplyAt(scenarios, calls, n), roomId)
    requires WorldAt(scenarios, calls, n + 1) == Step(WorldAt(scenarios, calls, n), calls[n]).0
    ensures PendingRefines(scenarios, calls, roomId, n + 1)
  {
    hide WorldAt, Sound, Agrees, Step, FreshId, FaultFree, IsAdvance, IsSubmission;
    var w := WorldAt(scenarios, calls, n);
    if GetSession(w, roomId).Ok? {
      QuietStep(w, calls[n], roomId);
    } else {
      NewGameEmpty(w, calls[n], roomId);
      var v := Step(w, calls[n]).0;
      if GetSession(v, roomId).Ok? {
        HealthyNext(w, calls[n]);
        SeatsSettled(v, roomId);
        forall k | 0 <= k < |v.rooms[roomId].players|
          ensures LastAccepted(scenarios, calls, roomId, v.rooms[roomId].players[k].id, n + 1).None?
        {
          assert LastAccepted(scenarios, calls, roomId, v.rooms[roomId].players[k].id, n).None?;
        }
        assert PendingRefines(scenarios, calls, roomId, n + 1);
      } else {
        var m: nat := n + 1;
        forall id ensures LastAccepted(scenarios, calls, roomId, id, m).None? {
          assert LastAccepted(scenarios, calls, roomId, id, n).None?;
        }
        assert PendingRefines(scenarios, calls, roomId, n + 1);
      }
    }
  }

  lemma HealthyNext(w: World, call: Call)
    requires Healthy(w) && FreshId(w, call) && FaultFree(call)
    ensures Sound(Step(w, call).0)
  {
    hide Sound, Agrees, Step, FreshId, FaultFree;
    StepSound(w, call);
  }

  /** At every point of a run the orders waiting in the store are those the log shows. */
  lemma {:induction false} PendingRefinesLog(scenarios: Repository, calls: seq<Call>, roomId: string, n: nat)
    requires FreshRun(scenarios, calls) && FaultFreeRun(calls) && n <= |calls|
    ensures PendingRefines(scenarios, calls, roomId, n)
  {
    hide FreshRun, PendingRefines, Healthy, Step, FreshId, FaultFree, WorldAt, ReplyAt, IsAdvance, IsSubmission;
    if n == 0 {
      NothingYet(scenarios, calls, roomId);
    } else {
      PendingRefinesLog(scenarios, calls, roomId, n - 1);
      HealthyAt(scenarios, calls, n - 1);
      RunPrefix(scenarios, calls, n - 1);
      if IsSubmission(calls[n - 1], ReplyAt(scenarios, calls, n - 1), roomId) {
        RefinesSubmission(scenarios, calls, roomId, n - 1);
      } else if IsAdvance(calls[n - 1], ReplyAt(scenarios, calls, n - 1), roomId) {
        RefinesAdvance(scenarios, calls, roomId, n - 1);
      } else {
        RefinesQuiet(scenarios, calls, roomId, n - 1);
      }
    }
  }

  lemma NothingYet(scenarios: Repository, calls: seq<Call>, roomId: string)
    ensures PendingRefines(scenarios, calls, roomId, 0)
  {
    EmptyStart(scenarios, calls);
  }

  // ---------- The history refines the log ----------

  /** Once a room has a game its players and their roles are fixed. */
  lemma {:induction false} PlayersFixed(scenarios: Repository, calls: seq<Call>, roomId: string, i: nat, j: nat)
    requires FreshRun(scenarios, calls) && FaultFreeRun(calls) && i <= j <= |calls|
    requires GetSession(WorldAt(scenarios, calls, i), roomId).Ok?
    ensures var w, v := WorldAt(scenarios, calls, i), WorldAt(scenarios, calls, j);
            && GetSession(v, roomId).Ok? && roomId in w.rooms && roomId in v.rooms
            && v.rooms[roomId].players == w.rooms[roomId].players
    decreases j - i
  {
    hide FreshRun, Sound, Agrees, Step, FreshId, FaultFree, WorldAt, IsAdvance, IsSubmission, Advanced, NextWeek,
      Pending, CurrentOrders;
    HealthyAt(scenarios, calls, i);
    SeatsSettled(WorldAt(scenarios, calls, i), roomId);
    if i < j {
      PlayersFixed(scenarios, calls, roomId, i, j - 1);
      HealthyAt(scenarios, calls, j - 1);
      RunPrefix(scenarios, calls, j - 1);
      var w, call := WorldAt(scenarios, calls, j - 1), calls[j - 1];
      PlayersStay(w, call, roomId);
    }
  }

  lemma PlayersStay(w: World, call: Call, roomId: string)
    requires Healthy(w) && FreshId(w, call) && FaultFree(call) && GetSession(w, roomId).Ok? && roomId in w.rooms
    ensures var v := Step(w, call).0;
            GetSession(v, roomId).Ok? && roomId in v.rooms && v.rooms[roomId].players == w.rooms[roomId].players
  {
    hide Sound, Agrees, Pending, Advanced, NextWeek, SubmitStep, AdvanceStep, GetSession, CurrentOrders;
    var reply := Step(w, call).1;
    if IsSubmission(call, reply, roomId) {
      SubmissionStep(w, roomId, call.playerId, call.order);
    } else if IsAdvance(call, reply, roomId) {
      AdvanceStepFacts(w, roomId);
    } else {
      QuietStep(w, call, roomId);
    }
  }

  /** A call that played a week of a session was a successful advance of its room. */
  lemma PlayedByAdvance(w: World, call: Call, v: World, id: string)
    requires Healthy(w) && FreshId(w, call) && FaultFree(call) && id in w.sessions
    requires v == Step(w, call).0 && PlaysNextWeek(w, v, id)
    ensures var s := w.sessions[id];
            && GetSession(w, s.roomId) == Ok(s) && IsAdvance(call, Step(w, call).1, s.roomId)
            && Complete(Pending(w, s.roomId))
            && Step(w, call).1 == WeekReply(NextWeek(s, Pending(w, s.roomId)))
  {
    hide Sound, Agrees, NextWeek, Step, FreshId, Key, Pending, PlaysNextWeek;
    var s, reply := w.sessions[id], Step(w, call).1;
    IndexFinds(w, id);
    PlayingChanges(w, v, id);
    if !IsAdvance(call, reply, s.roomId) {
      UnplayedSession(w, call, id);
    }
    AdvanceUnfolds(w, call);
    AdvanceStepFacts(w, s.roomId);
  }

  lemma PlayingChanges(w: World, v: World, id: string)
    requires PlaysNextWeek(w, v, id)
    ensures v.sessions[id] != w.sessions[id] && w.sessions[id].status == Active
  {
    hide Key, NextWeek;
    assert v.sessions[id].currentWeek == w.sessions[id].currentWeek + 1;
  }

  /** The orders a week is played with are those pending for the room. */
  lemma PendingIsStored(w: World, s: Session)
    requires GetSession(w, s.roomId) == Ok(s) && s.status == Active
    requires Key(s.roomId, s.currentWeek + 1) in w.decisions
    ensures Pending(w, s.roomId) == w.decisions[Key(s.roomId, s.currentWeek + 1)].orders
  {
    hide Key;
  }

  lemma AdvanceUnfolds(w: World, call: Call)
    requires call.AdvanceWeek? && FaultFree(call)
    ensures Step(w, call) == AdvanceStep(w, call.roomId, NoFault, NoFault, NoFault)
  {}

  lemma IndexFinds(w: World, id: string)
    requires Sound(w) && id in w.sessions
    ensures GetSession(w, w.sessions[id].roomId) == Ok(w.sessions[id])
  {
    hide RoomsSound, DecisionsSound, SessionSound;
  }

  lemma UnplayedSession(w: World, call: Call, id: string)
    requires Healthy(w) && FreshId(w, call) && FaultFree(call) && id in w.sessions
    requires !IsAdvance(call, Step(w, call).1, w.sessions[id].roomId)
    ensures id in Step(w, call).0.sessions && Step(w, call).0.sessions[id] == w.sessions[id]
  {
    hide Agrees, Step, FreshId, FaultFree, IsAdvance, Pending, PlaysNextWeek, CurrentOrders, SubmitStep;
    var s, v := w.sessions[id], Step(w, call).0;
    IndexFinds(w, id);
    StepPlaysAtMostOneWeek(w, call, id);
    HealthyNext(w, call);
    if IsSubmission(call, Step(w, call).1, s.roomId) {
      SubmitUnfolds(w, call);
      SubmissionStep(w, s.roomId, call.playerId, call.order);
    } else {
      QuietStep(w, call, s.roomId);
    }
    SameIndex(w, v, id);
  }

  lemma SubmitUnfolds(w: World, call: Call)
    requires call.SubmitOrder? && FaultFree(call)
    ensures Step(w, call) == SubmitStep(w, call.roomId, call.playerId, call.order, NoFault)
  {}

  lemma SameIndex(w: World, v: World, id: string)
    requires Sound(w) && Sound(v) && id in w.sessions && id in v.sessions
    requires GetSession(v, w.sessions[id].roomId) == GetSession(w, w.sessions[id].roomId)
    ensures v.sessions[id] == w.sessions[id]
  {
    hide RoomsSound, DecisionsSound, Kept, TableOk;
    var roomId := w.sessions[id].roomId;
    IndexFinds(w, id);
    assert v.sessionOf[roomId] in v.sessions && v.sessions[v.sessionOf[roomId]] == w.sessions[id];
  }

  /** The history refines the trace of submissions: every recorded week is the reply of one
      successful advance, and the order recorded for a role is the last one accepted from
      its holder before that advance and after the one before. */
  lemma HistoryRefinesLog(scenarios: Repository, calls: seq<Call>, id: string, t: nat, k: nat) returns (i: nat)
    requires FreshRun(scenarios, calls) && FaultFreeRun(calls)
    requires var w := WorldAt(scenarios, calls, |calls|);
             && id in w.sessions && 1 <= t <= w.sessions[id].currentWeek <= |w.sessions[id].history|
             && w.sessions[id].roomId in w.rooms && k < |w.rooms[w.sessions[id].roomId].players|
    ensures i < |calls|
    ensures var w := WorldAt(scenarios, calls, |calls|); var s := w.sessions[id];
            var player, week := w.rooms[s.roomId].players[k], s.history[t - 1];
            && IsAdvance(calls[i], ReplyAt(scenarios, calls, i), s.roomId)
            && ReplyAt(scenarios, calls, i) == WeekReply(week)
            && LastAccepted(scenarios, calls, s.roomId, player.id, i) ==
               Some(NodeByRole(week.nodes, player.role).placedOrder)
  {
    hide FreshRun, Sound, Agrees, Step, FreshId, FaultFree, WorldAt, IsAdvance, NextWeek, Key, LastAccepted, Pending;
    var w := WorldAt(scenarios, calls, |calls|);
    var s := w.sessions[id];
    i := WeekOrigin(scenarios, calls, id, t, |calls|);
    var u := WorldAt(scenarios, calls, i);
    HealthyAt(scenarios, calls, i);
    RunPrefix(scenarios, calls, i);
    PlayedByAdvance(u, calls[i], WorldAt(scenarios, calls, i + 1), id);
    PlayingChanges(u, WorldAt(scenarios, calls, i + 1), id);
    PendingIsStored(u, u.sessions[id]);
    PendingRefinesLog(scenarios, calls, s.roomId, i);
    PlayersFixed(scenarios, calls, s.roomId, i, |calls|);
    SeatsSettled(u, s.roomId);
    RecordedOrder(u.sessions[id], Pending(u, s.roomId), u.rooms[s.roomId].players[k].role);
  }

  lemma RecordedOrder(s: Session, orders: Decisions, role: Role)
    requires Complete(orders) && IsKnownRole(role)
    ensures OrderIn(orders, role) == Some(NodeByRole(NextWeek(s, orders).nodes, role).placedOrder)
  {
    NextNodeFacts(s, orders, role);
  }
}
