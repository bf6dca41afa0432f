/** Weeks are applied at most once, whatever writes fail and however often calls are
    repeated: each step leaves a session as it is or plays its next week, from orders
    stored for exactly that week. */
module Failures {
  import opened Common
  import opened Chain
  import opened ChainLaws
  import opened Rooms
  import opened WeekDecisions
  import opened Worlds
  import opened WorldLaws

  /** The step from w to v played the next week of a session, with the orders stored for it. */
  ghost predicate PlaysNextWeek(w: World, v: World, id: string) {
    && id in w.sessions && id in v.sessions
    && var s := w.sessions[id];
       var key := Key(s.roomId, s.currentWeek + 1);
       && key in w.decisions && AdvanceProblem(s, w.decisions[key].orders).None?
       && v.sessions[id] == Advanced(s, w.decisions[key].orders)
  }

  lemma AdvancePlays(w: World, roomId: string, saveSession: Fault, saveRoom: Fault, delete: Fault, id: string)
    requires Sound(w) && id in w.sessions
    ensures var v := AdvanceStep(w, roomId, saveSession, saveRoom, delete).0;
            && id in v.sessions
            && (v.sessions[id] == w.sessions[id] || PlaysNextWeek(w, v, id))
  {
    hide SessionSound, LobbyOk, Key, DecisionsSound, Advanced, NextWeek, AdvanceTarget;
    if AdvanceTarget(w, roomId).Ok? {
      AdvanceTargetFacts(w, roomId);
      var (session, orders) := AdvanceTarget(w, roomId).value;
      if AdvanceProblem(session, orders).None? {
        SessionOfId(w, w.sessionOf[roomId]);
        NextSessionSound(session, orders, session.id, w.rooms[roomId]);
      }
    }
  }

  lemma SessionOfId(w: World, id: string)
    requires Sound(w) && id in w.sessions
    ensures w.sessions[id].id == id && w.sessions[id].roomId in w.rooms
    ensures SessionSound(w.sessions[id], id, w.rooms[w.sessions[id].roomId])
  {
    hide Kept, TableOk, DecisionsSound, RoomsSound, IndexSound;
  }

  /** One call, with any of its writes failing, plays at most one week of any session. */
  lemma StepPlaysAtMostOneWeek(w: World, call: Call, id: string)
    requires Sound(w) && FreshId(w, call) && id in w.sessions
    ensures var v := Step(w, call).0;
            && id in v.sessions
            && (v.sessions[id] == w.sessions[id] || PlaysNextWeek(w, v, id))
  {
    hide PlaysNextWeek, Sound, StartScenario, FreshSession, Started, AdvanceTarget;
    match call
    case CreateRoom(_, _, _) =>
    case JoinRoom(_, _, _, _) =>
    case AssignRole(_, _, _, _) =>
    case StartGame(roomId, scenarioId, draws, newId, _, _) =>
      if StartScenario(w, roomId, scenarioId, draws).Ok? && newId.Some? {
        StartScenarioFacts(w, roomId, scenarioId, draws);
        FreshSessionRoom(newId.value, w.rooms[roomId].id, StartScenario(w, roomId, scenarioId, draws).value,
                         w.rooms[roomId].maxWeeks);
      }
    case SubmitOrder(_, _, _, _) =>
    case AdvanceWeek(roomId, saveSession, saveRoom, delete) =>
      AdvancePlays(w, roomId, saveSession, saveRoom, delete, id);
  }

  // ---------- Whole runs ----------

  ghost function WorldAt(scenarios: Repository, calls: seq<Call>, i: nat): World
    requires i <= |calls|
  {
    After(scenarios, calls[..i])
  }

  lemma {:induction false} RunPrefix(scenarios: Repository, calls: seq<Call>, i: nat)
    requires FreshRun(scenarios, calls) && i <= |calls|
    ensures FreshRun(scenarios, calls[..i])
    ensures i < |calls| ==> FreshId(WorldAt(scenarios, calls, i), calls[i])
    ensures i < |calls| ==> WorldAt(scenarios, calls, i + 1) == Step(WorldAt(scenarios, calls, i), calls[i]).0
    decreases |calls| - i
  {
    hide FreshId, Step;
    if i == |calls| {
      assert calls[..i] == calls;
    } else {
      RunPrefix(scenarios, calls, i + 1);
      assert calls[..i + 1][..i] == calls[..i];
    }
  }

  lemma WorldSound(scenarios: Repository, calls: seq<Call>, i: nat)
    requires FreshRun(scenarios, calls) && i <= |calls|
    ensures Sound(WorldAt(scenarios, calls, i))
  {
    hide Sound, FreshId, Step;
    RunPrefix(scenarios, calls, i);
    RunSound(scenarios, calls[..i]);
  }

  /** Call i of the run played a week of the session. */
  ghost predicate PlayedAt(scenarios: Repository, calls: seq<Call>, id: string, i: nat)
    requires i < |calls|
  {
    PlaysNextWeek(WorldAt(scenarios, calls, i), WorldAt(scenarios, calls, i + 1), id)
  }

  ghost function WeekCount(w: World, id: string): int {
    if id in w.sessions then w.sessions[id].currentWeek else 0
  }

  /** Between two points of a run a session stays, its history only grows, and it grows
      exactly when a call plays a week. */
  lemma {:induction false} HistoryGrows(scenarios: Repository, calls: seq<Call>, id: string, i: nat, j: nat)
    requires FreshRun(scenarios, calls) && i <= j <= |calls| && id in WorldAt(scenarios, calls, i).sessions
    ensures id in WorldAt(scenarios, calls, j).sessions
    ensures var s, t := WorldAt(scenarios, calls, i).sessions[id], WorldAt(scenarios, calls, j).sessions[id];
            s.history <= t.history && s.currentWeek <= t.currentWeek && s.roomId == t.roomId
    ensures (exists k :: i <= k < j && PlayedAt(scenarios, calls, id, k)) ==>
              WeekCount(WorldAt(scenarios, calls, i), id) < WeekCount(WorldAt(scenarios, calls, j), id)
    decreases j - i
  {
    hide FreshId, Step, Sound, WorldAt, Key, AdvanceProblem, NextWeek, PushedGoods, PushedOrders, ShiftedGoods,
      ShiftedOrders;
    if i < j {
      HistoryGrows(scenarios, calls, id, i, j - 1);
      RunPrefix(scenarios, calls, j - 1);
      WorldSound(scenarios, calls, j - 1);
      StepPlaysAtMostOneWeek(WorldAt(scenarios, calls, j - 1), calls[j - 1], id);
    }
  }

  /** No week is played twice: of two calls that played a week of the same session, the
      later one played a later week. */
  lemma WeeksPlayedOnce(scenarios: Repository, calls: seq<Call>, id: string, i: nat, j: nat)
    requires FreshRun(scenarios, calls) && i < j < |calls|
    requires PlayedAt(scenarios, calls, id, i) && PlayedAt(scenarios, calls, id, j)
    ensures WeekCount(WorldAt(scenarios, calls, i), id) < WeekCount(WorldAt(scenarios, calls, j), id)
  {
    hide WorldAt, FreshRun;
    HistoryGrows(scenarios, calls, id, i, j);
  }

  /** Every week in a session's history was played by one call of the run, from the orders
      then stored for that week. */
  lemma {:induction false} WeekOrigin(scenarios: Repository, calls: seq<Call>, id: string, t: nat, n: nat)
    returns (i: nat)
    requires FreshRun(scenarios, calls) && n <= |calls| && id in WorldAt(scenarios, calls, n).sessions
    requires 1 <= t <= WorldAt(scenarios, calls, n).sessions[id].currentWeek
    ensures i < n && PlayedAt(scenarios, calls, id, i)
    ensures var s, v := WorldAt(scenarios, calls, i).sessions[id], WorldAt(scenarios, calls, n).sessions[id];
            && s.currentWeek == t - 1 && s.roomId == v.roomId && |v.history| == v.currentWeek
            && v.history[t - 1] == NextWeek(s, WorldAt(scenarios, calls, i).decisions[Key(s.roomId, t)].orders)
    decreases n
  {
    hide FreshId, Step, Sound, WorldAt, Key, NextWeek, PushedGoods, PushedOrders, ShiftedGoods, ShiftedOrders,
      FreshRun;
    if n == 0 {
      EmptyStart(scenarios, calls);
      assert false;
    }
    RunPrefix(scenarios, calls, n - 1);
    WorldSound(scenarios, calls, n - 1);
    WorldSound(scenarios, calls, n);
    HistoryLength(WorldAt(scenarios, calls, n), id);
    var before := WorldAt(scenarios, calls, n - 1);
    if id in before.sessions {
      HistoryLength(before, id);
      StepPlaysAtMostOneWeek(before, calls[n - 1], id);
      if t <= before.sessions[id].currentWeek {
        i := WeekOrigin(scenarios, calls, id, t, n - 1);
        HistoryGrows(scenarios, calls, id, n - 1, n);
      } else {
        i := n - 1;
      }
    } else {
      NewSessionsStartAtZero(before, calls[n - 1], id);
      assert false;
    }
  }

  lemma EmptyStart(scenarios: Repository, calls: seq<Call>)
    ensures WorldAt(scenarios, calls, 0) == EmptyWorld(scenarios)
  {}

  lemma HistoryLength(w: World, id: string)
    requires Sound(w) && id in w.sessions
    ensures |w.sessions[id].history| == w.sessions[id].currentWeek
  {
    hide RoleKept;
    SessionOfId(w, id);
  }

  lemma NewSessionsStartAtZero(w: World, call: Call, id: string)
    requires Sound(w) && FreshId(w, call) && id !in w.sessions && id in Step(w, call).0.sessions
    ensures Step(w, call).0.sessions[id].currentWeek == 0
  {
    hide Sound, StartScenario, Started, AdvanceTarget, CommitWeek;
    match call
    case CreateRoom(_, _, _) =>
    case JoinRoom(_, _, _, _) =>
    case AssignRole(_, _, _, _) =>
    case StartGame(_, _, _, _, _, _) =>
    case SubmitOrder(_, _, _, _) =>
    case AdvanceWeek(roomId, saveSession, saveRoom, delete) =>
      AdvanceMakesNoSession(w, roomId, saveSession, saveRoom, delete);
  }

  lemma AdvanceMakesNoSession(w: World, roomId: string, saveSession: Fault, saveRoom: Fault, delete: Fault)
    requires Sound(w)
    ensures AdvanceStep(w, roomId, saveSession, saveRoom, delete).0.sessions.Keys == w.sessions.Keys
  {
    hide RoomsSound, DecisionsSound, AdvanceTarget, LobbyOk, Kept, Key, NextWeek;
    if AdvanceTarget(w, roomId).Ok? {
      AdvanceTargetFacts(w, roomId);
    }
  }

  /** Over any run with failing writes, weeks are numbered one by one and the room never
      runs ahead of its session. */
  lemma NumberedWeeks(scenarios: Repository, calls: seq<Call>, id: string)
    requires FreshRun(scenarios, calls) && id in After(scenarios, calls).sessions
    ensures var w := After(scenarios, calls); var s := w.sessions[id];
            && |s.history| == s.currentWeek <= s.maxWeeks
            && (forall i :: 0 <= i < |s.history| ==> s.history[i].week == i + 1)
            && s.roomId in w.rooms && w.rooms[s.roomId].currentWeek <= PlayableWeek(s)
  {
    hide RoleKept, FreshRun, After, Sound;
    RunSound(scenarios, calls);
    SessionOfId(After(scenarios, calls), id);
  }

  // ---------- What a failed call leaves ----------

  /** The same call with every write succeeding. */
  function Clean(call: Call): Call {
    match call
    case CreateRoom(maxWeeks, newId, _) => CreateRoom(maxWeeks, newId, NoFault)
    case JoinRoom(roomId, name, newId, _) => JoinRoom(roomId, name, newId, NoFault)
    case AssignRole(roomId, playerId, role, _) => AssignRole(roomId, playerId, role, NoFault)
    case StartGame(roomId, scenarioId, draws, newId, _, _) =>
      StartGame(roomId, scenarioId, draws, newId, NoFault, NoFault)
    case SubmitOrder(roomId, playerId, order, _) => SubmitOrder(roomId, playerId, order, NoFault)
    case AdvanceWeek(roomId, _, _, _) => AdvanceWeek(roomId, NoFault, NoFault, NoFault)
  }

  /** The stores after the first writes of a call that ends in v: a start writes the room and
      then the session, a week the session, the room, and the deleted orders. */
  ghost predicate FirstWrites(call: Call, w: World, v: World, u: World) {
    match call
    case StartGame(_, _, _, _, saveRoom, saveSession) =>
      u == if saveRoom.LostBefore? then w
           else if saveRoom.LostAfter? || saveSession.LostBefore? then w.(rooms := v.rooms)
           else v
    case AdvanceWeek(_, saveSession, saveRoom, delete) =>
      u == if saveSession.LostBefore? then w
           else if saveSession.LostAfter? || saveRoom.LostBefore? then
             w.(sessions := v.sessions, sessionOf := v.sessionOf)
           else if saveRoom.LostAfter? || delete.LostBefore? then
             w.(sessions := v.sessions, sessionOf := v.sessionOf, rooms := v.rooms)
           else v
    case CreateRoom(_, _, save) => u == if save.LostBefore? then w else v
    case JoinRoom(_, _, _, save) => u == if save.LostBefore? then w else v
    case AssignRole(_, _, _, save) => u == if save.LostBefore? then w else v
    case SubmitOrder(_, _, _, save) => u == if save.LostBefore? then w else v
  }

  /** A call that would be refused is refused the same way. One that would succeed reports a
      failed write, and has left the writes before it. */
  ghost predicate FailsPartly(w: World, call: Call) {
    var (v, reply) := Step(w, Clean(call));
    if reply.Refused? then Step(w, call) == (v, reply)
    else if FaultFree(call) then Step(w, call) == (v, reply)
    else Step(w, call).1 == Refused(StoreFailure) && FirstWrites(call, w, v, Step(w, call).0)
  }

  lemma LobbyFaults(w: World, call: Call)
    requires call.CreateRoom? || call.JoinRoom? || call.AssignRole? || call.SubmitOrder?
    ensures FailsPartly(w, call)
  {
    hide AddProblem, AssignProblem, SubmitTarget, CurrentOrders, SnapshotOf, Key;
  }

  lemma StartFaults(w: World, call: Call)
    requires call.StartGame?
    ensures FailsPartly(w, call)
  {
    hide StartScenario, FreshSession, NewSessionProblem, Started, PlayableWeek;
    if StartScenario(w, call.roomId, call.scenarioId, call.draws).Ok? {
      StartScenarioFacts(w, call.roomId, call.scenarioId, call.draws);
    }
  }

  lemma AdvanceFaults(w: World, call: Call)
    requires call.AdvanceWeek?
    ensures FailsPartly(w, call)
  {
    hide AdvanceTarget, AdvanceProblem, Advanced, NextWeek, PlayableWeek, Key;
  }

  /** Whatever writes fail: a call that would be refused is refused the same way; one that would
      succeed reports a failed write and has left the writes before it and, if the report came
      after the effect, that one, but never a later write without the earlier ones. */
  lemma FaultOutcome(w: World, call: Call)
    ensures FailsPartly(w, call)
  {
    hide Step, FirstWrites, FaultFree, Clean;
    if call.StartGame? {
      StartFaults(w, call);
    } else if call.AdvanceWeek? {
      AdvanceFaults(w, call);
    } else {
      LobbyFaults(w, call);
    }
  }
}
