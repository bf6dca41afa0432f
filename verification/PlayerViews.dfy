/** What a player is shown, and that it depends on the player's own share of the game only.
    Models GetPlayerState and GetPendingDecisions of internal/usecase/game_service.go. */
module PlayerViews {
  import opened Common
  import opened Sums
  import opened Chain
  import opened ChainLaws
  import opened Rooms
  import opened WeekDecisions
  import opened Worlds
  import opened WorldLaws
  import opened Analytics

  datatype PlayerSummary = PlayerSummary(name: string, role: Role, connected: bool)

  datatype PlayerState = PlayerState(
    roomId: string,
    playerId: string,
    playerName: string,
    role: Role,
    roomStatus: GameStatus,
    currentWeek: int,
    maxWeeks: int,
    scenarioId: string,
    players: seq<PlayerSummary>,
    ordersSubmitted: nat,
    ordersExpected: nat,
    weekReady: bool,
    ownOrderSubmitted: bool,
    ownCurrentOrder: int,
    ownNode: Option<NodeState>,
    ownHistory: seq<NodeState>,
    totalSystemCost: int,
    ownAnalytics: Option<NodeAnalytics>)

  function Summaries(players: seq<Player>): seq<PlayerSummary> {
    seq(|players|, i requires 0 <= i < |players| =>
      PlayerSummary(players[i].name, players[i].role, players[i].connected))
  }

  function FindFrom(players: seq<Player>, playerId: string, i: nat): Result<Player>
    decreases |players| - i
  {
    if i >= |players| then Err(PlayerNotFound)
    else if players[i].id == playerId then Ok(players[i])
    else FindFrom(players, playerId, i + 1)
  }

  function FindPlayer(room: Room, playerId: string): Result<Player> {
    FindFrom(room.players, playerId, 0)
  }

  function PendingDecisions(w: World, roomId: string): Result<Snapshot> {
    var session := GetSession(w, roomId);
    if session.Err? then Err(session.error)
    else Ok(SnapshotOf(CurrentOrders(w, roomId, PlayableWeek(session.value))))
  }

  function OwnHistory(history: seq<WeekState>, role: Role): seq<NodeState> {
    seq(|history|, i requires 0 <= i < |history| => NodeByRole(history[i].nodes, role))
  }

  function AnalyticsFrom(reports: seq<NodeAnalytics>, role: Role, i: nat): Option<NodeAnalytics>
    decreases |reports| - i
  {
    if i >= |reports| then None
    else if reports[i].role == role then Some(reports[i])
    else AnalyticsFrom(reports, role, i + 1)
  }

  /** What is shown before the game starts. */
  function LobbyView(room: Room, player: Player): PlayerState {
    PlayerState(room.id, player.id, player.name, player.role, room.status, room.currentWeek, room.maxWeeks,
                room.scenarioId, Summaries(room.players), 0, 0, false, false, 0, None, [], 0, None)
  }

  /** What is shown once there is a session. */
  function GameView(room: Room, player: Player, s: Session, pending: Snapshot): PlayerState {
    var report := Report(s.history);
    LobbyView(room, player).(
      currentWeek := PlayableWeek(s),
      scenarioId := s.scenario.id,
      ordersSubmitted := |pending.submitted|,
      ordersExpected := 4,
      weekReady := pending.ready,
      ownNode := Some(NodeByRole(s.nodes, player.role)),
      ownHistory := OwnHistory(s.history, player.role),
      totalSystemCost := report.totalCost,
      ownOrderSubmitted := player.role in pending.orders,
      ownCurrentOrder := (if player.role in pending.orders then pending.orders[player.role] else 0),
      ownAnalytics := AnalyticsFrom(report.nodeAnalytics, player.role, 0))
  }

  function PlayerView(w: World, roomId: string, playerId: string): Result<PlayerState> {
    var room := GetRoom(w, roomId);
    if room.Err? then Err(room.error)
    else
      var player := FindPlayer(room.value, playerId);
      if player.Err? then Err(player.error)
      else if room.value.status == Waiting then Ok(LobbyView(room.value, player.value))
      else
        var session := GetSession(w, roomId);
        if session.Err? then Err(session.error)
        else Ok(GameView(room.value, player.value, session.value, PendingDecisions(w, roomId).value))
  }

  // ---------- Projection ----------

  /** What two sessions have in common for the holder of a role. */
  ghost predicate SameShare(s: Session, t: Session, role: Role) {
    && s.currentWeek == t.currentWeek && s.status == t.status && s.scenario.id == t.scenario.id
    && WeekCosts(s.history) == WeekCosts(t.history)
    && NodeByRole(s.nodes, role) == NodeByRole(t.nodes, role)
    && OwnHistory(s.history, role) == OwnHistory(t.history, role)
  }

  /** And two sets of submitted orders. */
  ghost predicate SameOrders(p: Snapshot, q: Snapshot, role: Role) {
    && |p.submitted| == |q.submitted|
    && (role in p.orders <==> role in q.orders)
    && (role in p.orders ==> p.orders[role] == q.orders[role])
  }

  lemma OwnColumns(history: seq<WeekState>, other: seq<WeekState>, role: Role, m: Metric)
    requires OwnHistory(history, role) == OwnHistory(other, role)
    ensures Column(history, role, m) == Column(other, role, m)
  {
    assert |history| == |OwnHistory(history, role)| == |other|;
    forall i | 0 <= i < |history| ensures Column(history, role, m)[i] == Column(other, role, m)[i] {
      assert OwnHistory(history, role)[i] == OwnHistory(other, role)[i];
    }
  }

  lemma OwnReport(history: seq<WeekState>, other: seq<WeekState>, role: Role)
    requires Regular(history) && Regular(other) && IsKnownRole(role)
    requires OwnHistory(history, role) == OwnHistory(other, role)
    ensures RoleReport(AllNodes(history), role) == RoleReport(AllNodes(other), role)
  {
    hide AllNodes, Variance, Mean, Series, Column, Sum, OwnHistory;
    forall m: Metric ensures Series(AllNodes(history), role, m) == Series(AllNodes(other), role, m) {
      OwnColumns(history, other, role, m);
      SeriesIsColumn(history, role, m);
      SeriesIsColumn(other, role, m);
    }
  }

  lemma ReportFound(nodes: seq<NodeState>, role: Role)
    requires IsKnownRole(role)
    ensures AnalyticsFrom(RoleReports(nodes, 4), role, 0) == Some(RoleReport(nodes, role))
  {
    hide RoleReports, Variance, Mean, Series, Sum;
    ReportsListed(nodes);
    var reports := RoleReports(nodes, 4);
    assert AnalyticsFrom(reports, role, 3) == if role.Retailer? then Some(reports[3]) else None;
    assert role.Wholesaler? || role.Retailer? ==> AnalyticsFrom(reports, role, 2) == Some(RoleReport(nodes, role));
    assert !role.Factory? ==> AnalyticsFrom(reports, role, 1) == Some(RoleReport(nodes, role));
  }

  lemma OwnAnalytics(history: seq<WeekState>, other: seq<WeekState>, role: Role)
    requires Regular(history) && Regular(other) && IsKnownRole(role)
    requires OwnHistory(history, role) == OwnHistory(other, role)
    ensures AnalyticsFrom(Report(history).nodeAnalytics, role, 0) == AnalyticsFrom(Report(other).nodeAnalytics, role, 0)
  {
    hide RoleReports, RoleReport, AnalyticsFrom, AllNodes, Variance, RoleVariances, RoleBullwhips, DemandSeries;
    assert |history| == |OwnHistory(history, role)| == |OwnHistory(other, role)| == |other|;
    OwnReport(history, other, role);
    if history != [] {
      ReportFound(AllNodes(history), role);
      ReportFound(AllNodes(other), role);
    }
  }

  lemma SameCost(history: seq<WeekState>, other: seq<WeekState>)
    requires WeekCosts(history) == WeekCosts(other)
    ensures Report(history).totalCost == Report(other).totalCost
  {
    hide RoleReports, AllNodes, Variance, RoleVariances, RoleBullwhips, DemandSeries, Sum;
    assert |history| == |WeekCosts(history)| == |WeekCosts(other)| == |other|;
  }

  lemma SameGameView(room: Room, player: Player, s: Session, t: Session, p: Snapshot, q: Snapshot)
    requires Regular(s.history) && Regular(t.history) && IsKnownRole(player.role)
    requires SameShare(s, t, player.role) && SameOrders(p, q, player.role)
    requires p.ready == q.ready
    ensures GameView(room, player, s, p) == GameView(room, player, t, q)
  {
    hide Report, NodeByRole, Summaries, WeekCosts, OwnHistory;
    OwnAnalytics(s.history, t.history, player.role);
    SameCost(s.history, t.history);
  }

  lemma RegularHistory(w: World, roomId: string)
    requires Sound(w) && GetSession(w, roomId).Ok?
    ensures Regular(GetSession(w, roomId).value.history)
    ensures roomId in w.rooms && Bijective(w.rooms[roomId].players)
  {
    hide RoleKept, TableOk, DecisionsSound;
  }

  lemma FoundRole(players: seq<Player>, playerId: string, i: nat)
    requires Bijective(players) && FindFrom(players, playerId, i).Ok?
    ensures IsKnownRole(FindFrom(players, playerId, i).value.role)
    decreases |players| - i
  {}

  /** The player's view is a projection: two reachable states that agree on the room, the
      week, status and scenario of the session, the weekly total costs, the number of
      submitted orders and the player's own nodes and own order show the player the same. */
  lemma ViewIsProjection(w: World, v: World, roomId: string, playerId: string)
    requires GetRoom(w, roomId) == GetRoom(v, roomId)
    requires GetSession(w, roomId).Ok? <==> GetSession(v, roomId).Ok?
    requires GetRoom(w, roomId).Ok? && FindPlayer(GetRoom(w, roomId).value, playerId).Ok? &&
             GetSession(w, roomId).Ok? ==>
               var role := FindPlayer(GetRoom(w, roomId).value, playerId).value.role;
               && SameShare(GetSession(w, roomId).value, GetSession(v, roomId).value, role)
               && SameOrders(PendingDecisions(w, roomId).value, PendingDecisions(v, roomId).value, role)
    requires Sound(w) && Sound(v)
    ensures PlayerView(w, roomId, playerId) == PlayerView(v, roomId, playerId)
  {
    hide Sound, SameShare, SameOrders, GameView, LobbyView, SnapshotOf, CurrentOrders, PlayableWeek;
    if GetRoom(w, roomId).Ok? && FindPlayer(GetRoom(w, roomId).value, playerId).Ok? && GetSession(w, roomId).Ok? {
      var room := GetRoom(w, roomId).value;
      RegularHistory(w, roomId);
      RegularHistory(v, roomId);
      FoundRole(room.players, playerId, 0);
      var p, q := PendingDecisions(w, roomId).value, PendingDecisions(v, roomId).value;
      SameReadiness(CurrentOrders(w, roomId, PlayableWeek(GetSession(w, roomId).value)),
                    CurrentOrders(v, roomId, PlayableWeek(GetSession(v, roomId).value)),
                    FindPlayer(room, playerId).value.role);
      SameGameView(room, FindPlayer(room, playerId).value, GetSession(w, roomId).value,
                   GetSession(v, roomId).value, p, q);
    }
  }

  lemma SameReadiness(d: WeeklyDecisions, e: WeeklyDecisions, role: Role)
    requires SameOrders(SnapshotOf(d), SnapshotOf(e), role)
    ensures SnapshotOf(d).ready == SnapshotOf(e).ready
  {
    ReadyMeansFour(d);
    ReadyMeansFour(e);
  }
}
