/** What holds of every game a run of calls can produce: when it starts, how often, what its
    report says, and that every reply agrees with what is stored. */
module Games {
  import opened Common
  import opened Scenarios
  import opened Chain
  import opened ChainLaws
  import opened Rooms
  import opened WeekDecisions
  import opened Worlds
  import opened WorldLaws
  import opened Failures
  import opened Analytics
  import opened VarianceLaws
  import opened Agreement
  import opened PlayerViews
  import T = Traces

  /** In a reachable lobby a start succeeds exactly when the room is waiting with four players
      and the scenario is found and valid. */
  lemma StartSucceedsExactly(w: World, roomId: string, scenarioId: string, draws: seq<nat>, newId: string)
    requires Sound(w)
    ensures StartStep(w, roomId, scenarioId, draws, Some(newId), NoFault, NoFault).1.SessionReply? <==>
            && roomId in w.rooms && w.rooms[roomId].status == Waiting && |w.rooms[roomId].players| == SEATS
            && GetScenario(w, scenarioId).Ok? && Validate(GetScenario(w, scenarioId).value).None?
  {
    hide SessionsSound, IndexSound, DecisionsSound, RoomSound, StartScenario, Validate, FreshSession, Started,
      SessionSound;
    StartScenarioIff(w, roomId, scenarioId, draws);
    if StartScenario(w, roomId, scenarioId, draws).Ok? {
      StartedSessionSound(w, roomId, scenarioId, draws, newId);
    }
  }

  /** A room that has left the lobby never returns to it. */
  lemma StepNeverReopens(w: World, call: Call, roomId: string)
    requires Sound(w) && FreshId(w, call) && roomId in w.rooms && w.rooms[roomId].status != Waiting
    ensures roomId in Step(w, call).0.rooms && Step(w, call).0.rooms[roomId].status != Waiting
  {
    hide SessionsSound, IndexSound, DecisionsSound, LobbyOk, StartStep, AdvanceStep, SubmitTarget;
    match call
    case CreateRoom(_, _, _) =>
    case JoinRoom(_, _, _, _) =>
    case AssignRole(_, _, _, _) =>
    case StartGame(_, _, _, _, _, _) =>
      StartNeverReopens(w, call, roomId);
    case SubmitOrder(_, _, _, _) =>
    case AdvanceWeek(_, _, _, _) =>
      AdvanceNeverReopens(w, call, roomId);
  }

  lemma StartNeverReopens(w: World, call: Call, roomId: string)
    requires call.StartGame? && roomId in w.rooms && w.rooms[roomId].status != Waiting
    ensures roomId in Step(w, call).0.rooms && Step(w, call).0.rooms[roomId].status != Waiting
  {
    hide StartScenario, FreshSession, Completed, NewSessionProblem;
    if StartScenario(w, call.roomId, call.scenarioId, call.draws).Ok? {
      StartScenarioFacts(w, call.roomId, call.scenarioId, call.draws);
    }
  }

  lemma AdvanceNeverReopens(w: World, call: Call, roomId: string)
    requires call.AdvanceWeek? && roomId in w.rooms && w.rooms[roomId].id == roomId && w.rooms[roomId].status != Waiting
    requires forall id :: id in w.rooms ==> w.rooms[id].id == id
    ensures roomId in Step(w, call).0.rooms && Step(w, call).0.rooms[roomId].status != Waiting
  {
    hide Advanced, AdvanceTarget, AdvanceProblem, NextWeek;
    if AdvanceTarget(w, call.roomId).Ok? {
      var (s, orders) := AdvanceTarget(w, call.roomId).value;
      if AdvanceProblem(s, orders).None? {
        PlayedStatus(s, orders);
      }
    }
  }

  lemma PlayedStatus(s: Session, orders: Decisions)
    requires AdvanceProblem(s, orders).None?
    ensures Complete(orders) && Advanced(s, orders).status != Waiting
  {}

  ghost predicate InPlay(w: World, roomId: string) {
    roomId in w.rooms && w.rooms[roomId].status != Waiting
  }

  lemma {:induction false} StaysInPlay(scenarios: Repository, calls: seq<Call>, roomId: string, i: nat, j: nat)
    requires FreshRun(scenarios, calls) && i <= j <= |calls| && InPlay(WorldAt(scenarios, calls, i), roomId)
    ensures InPlay(WorldAt(scenarios, calls, j), roomId)
    decreases j - i
  {
    hide Sound, FreshId, Step, WorldAt, FreshRun;
    if i < j {
      StaysInPlay(scenarios, calls, roomId, i, j - 1);
      WorldSound(scenarios, calls, j - 1);
      RunPrefix(scenarios, calls, j - 1);
      StepNeverReopens(WorldAt(scenarios, calls, j - 1), calls[j - 1], roomId);
    }
  }

  /** Call i started a game in the room. */
  ghost predicate StartedAt(scenarios: Repository, calls: seq<Call>, roomId: string, i: nat)
    requires i < |calls|
  {
    && calls[i].StartGame? && calls[i].roomId == roomId
    && Step(WorldAt(scenarios, calls, i), calls[i]).1.SessionReply?
  }

  lemma StartLeavesLobby(w: World, call: Call)
    requires Sound(w) && call.StartGame? && Step(w, call).1.SessionReply?
    ensures !InPlay(w, call.roomId) && InPlay(Step(w, call).0, call.roomId)
  {
    hide SessionsSound, IndexSound, DecisionsSound, LobbyOk, FreshSession, Completed;
  }

  /** A room starts at most one game. */
  lemma StartsAtMostOnce(scenarios: Repository, calls: seq<Call>, roomId: string, i: nat, j: nat)
    requires FreshRun(scenarios, calls) && i < j < |calls| && StartedAt(scenarios, calls, roomId, i)
    ensures !StartedAt(scenarios, calls, roomId, j)
  {
    hide Sound, FreshId, Step, WorldAt, FreshRun, InPlay;
    WorldSound(scenarios, calls, i);
    RunPrefix(scenarios, calls, i);
    StartLeavesLobby(WorldAt(scenarios, calls, i), calls[i]);
    StaysInPlay(scenarios, calls, roomId, i + 1, j);
    WorldSound(scenarios, calls, j);
    if StartedAt(scenarios, calls, roomId, j) {
      StartLeavesLobby(WorldAt(scenarios, calls, j), calls[j]);
    }
  }

  /** The week a session may still play has its own entry in the table, so demand is never
      read out of range and never falls back to the last entry. */
  lemma NextDemandInTable(scenarios: Repository, calls: seq<Call>, id: string, orders: Decisions)
    requires FreshRun(scenarios, calls) && id in After(scenarios, calls).sessions
    requires AdvanceProblem(After(scenarios, calls).sessions[id], orders).None?
    ensures var s := After(scenarios, calls).sessions[id];
            && 0 <= s.currentWeek < |s.scenario.consumerDemand|
            && OrderDue(s, Retailer) == s.scenario.consumerDemand[s.currentWeek]
  {
    hide Sound, FreshRun, After, RoleKept;
    RunSound(scenarios, calls);
    SessionOfId(After(scenarios, calls), id);
  }

  /** The report of any game in any run: demand is the start of the table, which is never
      read past its end; in random mode its variance is at most a quarter of the squared
      range; and the total cost is the sum of the roles' costs. */
  lemma GameReport(scenarios: Repository, calls: seq<Call>, id: string)
    requires FreshRun(scenarios, calls) && id in After(scenarios, calls).sessions
    ensures var s := After(scenarios, calls).sessions[id];
            && 0 <= s.currentWeek <= s.maxWeeks == |s.scenario.consumerDemand|
            && DemandSeries(s.history) == s.scenario.consumerDemand[..s.currentWeek]
            && (NormalizedMode(s.scenario).RandomBlocks? ==>
                  var range := s.scenario.demandMax - s.scenario.demandMin;
                  0.0 <= Report(s.history).demandVariance <= (range * range) as real / 4.0)
            && (s.history != [] ==>
                  var r := Report(s.history);
                  |r.nodeAnalytics| == 4 &&
                  r.totalCost == r.nodeAnalytics[0].totalCost + r.nodeAnalytics[1].totalCost +
                                 r.nodeAnalytics[2].totalCost + r.nodeAnalytics[3].totalCost)
  {
    hide Sound, FreshRun, After, RoleKept, DemandSeries, Report;
    RunSound(scenarios, calls);
    var s := After(scenarios, calls).sessions[id];
    SessionOfId(After(scenarios, calls), id);
    DemandIsTablePrefix(s);
    if NormalizedMode(s.scenario).RandomBlocks? {
      ReportedDemandBound(s, s.scenario.demandMin, s.scenario.demandMax);
    }
    if s.history != [] {
      TotalCostSplits(s);
    }
  }

  // ---------- Replies ----------

  /** What a reply says can be read back from the stores after the call; a refused call has
      changed nothing. */
  ghost predicate ReadsBack(w: World, v: World, call: Call, reply: Reply) {
    match reply
    case RoomReply(room) => GetRoom(v, room.id) == Ok(room)
    case SessionReply(s) => GetSession(v, s.roomId) == Ok(s) && GetRoom(v, s.roomId).Ok?
    case SnapshotReply(snapshot) => PendingDecisions(v, snapshot.roomId) == Ok(snapshot)
    case WeekReply(week) =>
      && call.AdvanceWeek? && GetSession(v, call.roomId).Ok? && GetSession(w, call.roomId).Ok?
      && GetSession(v, call.roomId).value.history == GetSession(w, call.roomId).value.history + [week]
      && PendingDecisions(v, call.roomId).Ok? && PendingDecisions(v, call.roomId).value.submitted == []
    case Refused(_) => v == w
  }

  lemma LobbyReadsBack(w: World, call: Call)
    requires Sound(w) && FaultFree(call) && (call.CreateRoom? || call.JoinRoom? || call.AssignRole?)
    ensures ReadsBack(w, Step(w, call).0, call, Step(w, call).1)
  {
    hide SessionsSound, IndexSound, DecisionsSound, LobbyOk, AddProblem, AssignProblem, PendingDecisions;
  }

  lemma StartReadsBack(w: World, call: Call)
    requires Sound(w) && FaultFree(call) && call.StartGame?
    ensures ReadsBack(w, Step(w, call).0, call, Step(w, call).1)
  {
    hide SessionsSound, IndexSound, DecisionsSound, LobbyOk, StartScenario, FreshSession, Completed, PendingDecisions;
    var compiled := StartScenario(w, call.roomId, call.scenarioId, call.draws);
    if compiled.Ok? && call.newId.Some? {
      StartScenarioFacts(w, call.roomId, call.scenarioId, call.draws);
      var room := w.rooms[call.roomId];
      FreshFields(call.newId.value, room.id, compiled.value, room.maxWeeks);
    }
  }

  lemma SubmitReadsBack(w: World, call: Call)
    requires Sound(w) && FaultFree(call) && call.SubmitOrder?
    ensures ReadsBack(w, Step(w, call).0, call, Step(w, call).1)
  {
    hide Sound, RolesWith, Key, PlayableWeek;
    if Step(w, call).1.SnapshotReply? {
      CurrentOrdersSound(w, call.roomId, PlayableWeek(GetSession(w, call.roomId).value));
    }
  }

  lemma RefusedAdvance(w: World, call: Call)
    requires FaultFree(call) && call.AdvanceWeek?
    ensures Step(w, call) == AdvanceStep(w, call.roomId, NoFault, NoFault, NoFault)
    ensures Step(w, call).1.WeekReply? || (Step(w, call).1.Refused? && Step(w, call).0 == w)
  {
    hide AdvanceTarget, AdvanceProblem, NextWeek, Advanced, Key;
  }

  lemma AdvanceReadsBack(w: World, call: Call)
    requires Sound(w) && Agrees(w) && FaultFree(call) && call.AdvanceWeek?
    ensures ReadsBack(w, Step(w, call).0, call, Step(w, call).1)
  {
    hide Sound, Agrees, NextWeek, Step, AdvanceStep, FaultFree, Key;
    RefusedAdvance(w, call);
    if Step(w, call).1.WeekReply? {
      T.AdvanceStepFacts(w, call.roomId);
      var v := Step(w, call).0;
      NoneSubmitted(CurrentOrders(v, call.roomId, PlayableWeek(GetSession(v, call.roomId).value)));
    }
  }

  lemma NoneSubmitted(d: WeeklyDecisions)
    requires d.orders == map[]
    ensures SnapshotOf(d).submitted == []
  {
    assert RolesWith(d.orders, true, 1) == [];
    assert RolesWith(d.orders, true, 2) == [];
    assert RolesWith(d.orders, true, 3) == [];
  }

  /** Every answer agrees with what is stored afterwards. */
  lemma ReplyReadsBack(w: World, call: Call)
    requires Sound(w) && Agrees(w) && FaultFree(call)
    ensures ReadsBack(w, Step(w, call).0, call, Step(w, call).1)
  {
    hide Sound, Agrees, Step, ReadsBack, FaultFree;
    match call
    case CreateRoom(_, _, _) => LobbyReadsBack(w, call);
    case JoinRoom(_, _, _, _) => LobbyReadsBack(w, call);
    case AssignRole(_, _, _, _) => LobbyReadsBack(w, call);
    case StartGame(_, _, _, _, _, _) => StartReadsBack(w, call);
    case SubmitOrder(_, _, _, _) => SubmitReadsBack(w, call);
    case AdvanceWeek(_, _, _, _) => AdvanceReadsBack(w, call);
  }
}
