/** What a player is shown: their own seat, what everybody may see, and once the game is on
    their own node, history, order and figures. Models GetPlayerState and GetPendingDecisions of
    internal/usecase/game_service.go. */
module ViewLaws {
  import opened Common
  import opened Sums
  import opened Chain
  import opened ChainLaws
  import opened Rooms
  import opened RoomLaws
  import opened WeekDecisions
  import opened Worlds
  import opened WorldLaws
  import opened Agreement
  import opened Outcomes
  import opened Analytics
  import opened ReportLaws
  import opened PlayerViews

  // ---------- The seat that is found ----------

  lemma {:induction false} SeatSearch(players: seq<Player>, playerId: string, i: nat)
    requires i <= |players|
    ensures FindFrom(players, playerId, i).Ok? <==> exists k :: i <= k < |players| && players[k].id == playerId
    ensures FindFrom(players, playerId, i).Ok? ==>
              FindFrom(players, playerId, i).value.id == playerId &&
              FindFrom(players, playerId, i).value in players[i..]
    ensures FindFrom(players, playerId, i).Err? ==> FindFrom(players, playerId, i).error == PlayerNotFound
    decreases |players| - i
  {
    if i < |players| {
      assert players[i..] == [players[i]] + players[i + 1..];
      if players[i].id != playerId {
        SeatSearch(players, playerId, i + 1);
      }
    }
  }

  /** A player is found exactly if seated, and then it is that player's own seat. */
  lemma FoundSeat(room: Room, playerId: string)
    ensures FindPlayer(room, playerId).Ok? <==> Sits(room.players, playerId)
    ensures FindPlayer(room, playerId).Ok? ==> FindPlayer(room, playerId).value.id == playerId
    ensures FindPlayer(room, playerId).Ok? ==> FindPlayer(room, playerId).value in room.players
    ensures FindPlayer(room, playerId).Err? ==> FindPlayer(room, playerId).error == PlayerNotFound
  {
    SeatSearch(room.players, playerId, 0);
    assert room.players[0..] == room.players;
  }

  lemma OwnSeat(room: Room, k: nat)
    requires IdsDistinct(room.players) && k < |room.players|
    ensures FindPlayer(room, room.players[k].id) == Ok(room.players[k])
  {
    FoundSeat(room, room.players[k].id);
    var p := FindPlayer(room, room.players[k].id).value;
    var j :| 0 <= j < |room.players| && room.players[j] == p;
    assert j == k;
  }

  // ---------- Who is shown anything ----------

  /** A view is refused exactly for a missing room and for a player who has no seat in it. */
  lemma ViewRefusals(w: World, roomId: string, playerId: string)
    requires Sound(w) && Agrees(w)
    ensures var r := PlayerView(w, roomId, playerId);
            && (r.Ok? <==> roomId in w.rooms && Sits(w.rooms[roomId].players, playerId))
            && (roomId !in w.rooms ==> r == Err(RoomNotFound))
            && (roomId in w.rooms && !Sits(w.rooms[roomId].players, playerId) ==> r == Err(PlayerNotFound))
  {
    hide Sound, Agrees, FindPlayer, GameView, LobbyView, SnapshotOf, CurrentOrders, PlayableWeek;
    if roomId in w.rooms {
      FoundSeat(w.rooms[roomId], playerId);
      SessionOfRoom(w, roomId);
    }
  }

  // ---------- What is shown ----------

  /** What everybody in a room may see: the room, and every seat's name, role and connection;
      of the seats' ids only one's own. */
  ghost predicate ShowsTable(state: PlayerState, room: Room, k: nat)
    requires k < |room.players|
  {
    && state.roomId == room.id && state.roomStatus == room.status && state.maxWeeks == room.maxWeeks
    && state.scenarioId == room.scenarioId && state.currentWeek == room.currentWeek
    && state.playerId == room.players[k].id && state.playerName == room.players[k].name
    && state.role == room.players[k].role
    && |state.players| == |room.players|
    && forall i :: 0 <= i < |room.players| ==>
         state.players[i] == PlayerSummary(room.players[i].name, room.players[i].role, room.players[i].connected)
  }

  /** Before the game there is nothing but the table to see. */
  lemma LobbyShows(w: World, roomId: string, k: nat)
    requires Sound(w) && roomId in w.rooms && w.rooms[roomId].status == Waiting && k < |w.rooms[roomId].players|
    ensures var r := PlayerView(w, roomId, w.rooms[roomId].players[k].id);
            && r.Ok? && ShowsTable(r.value, w.rooms[roomId], k)
            && r.value.ordersSubmitted == r.value.ordersExpected == 0 && !r.value.weekReady
            && !r.value.ownOrderSubmitted && r.value.ownCurrentOrder == 0
            && r.value.ownNode.None? && r.value.ownHistory == [] && r.value.totalSystemCost == 0
            && r.value.ownAnalytics.None?
  {
    hide Sound, FindPlayer;
    RoomIsSound(w, roomId);
    OwnSeat(w.rooms[roomId], k);
  }

  /** The roles with an order. */
  ghost function Submitted(orders: Decisions): set<Role> {
    set role | role in orders && IsKnownRole(role)
  }

  /** In a game a player sees the table, the week that is on, how many of the four orders are
      in, their own order if it is, their own node and its history, everybody's total cost, and
      once a week was played their own part of the report. */
  ghost predicate ShowsGame(state: PlayerState, room: Room, k: nat, s: Session, orders: Decisions)
    requires k < |room.players|
  {
    var role := room.players[k].role;
    && ShowsTable(state, room, k)
    && state.ordersExpected == 4 && state.ordersSubmitted == |Submitted(orders)|
    && (state.weekReady <==> Complete(orders))
    && (state.ownOrderSubmitted <==> role in orders)
    && state.ownCurrentOrder == (if role in orders then orders[role] else 0)
    && state.ownNode == Some(NodeByRole(s.nodes, role))
    && |state.ownHistory| == |s.history|
    && (forall i :: 0 <= i < |s.history| ==> state.ownHistory[i] == NodeByRole(s.history[i].nodes, role))
    && state.totalSystemCost == Sum(WeekCosts(s.history))
    && (s.history == [] ==> state.ownAnalytics.None?)
    && (s.history != [] ==> state.ownAnalytics.Some? && PartIs(state.ownAnalytics.value, s.history, role))
  }

  lemma CountSubmitted(orders: Decisions)
    ensures |RolesWith(orders, true, 4)| == |Submitted(orders)|
  {
    hide RolesWith;
    RolesOrdered(orders, true, 4);
    ListedOnce(RolesWith(orders, true, 4));
    var listed := RolesWith(orders, true, 4);
    assert forall role :: role in Submitted(orders) ==> role in listed by {
      forall role | role in Submitted(orders) ensures role in listed {
        SnapshotShows(WeeklyDecisions("", 0, orders), role);
      }
    }
    assert forall role :: role in listed ==> role in Submitted(orders) by {
      forall role | role in listed ensures role in Submitted(orders) {
        SnapshotShows(WeeklyDecisions("", 0, orders), role);
      }
    }
    assert (set role | role in listed) == Submitted(orders);
  }

  lemma {:induction false} ListedOnce(roles: seq<Role>)
    requires InGameOrder(roles)
    ensures |set role | role in roles| == |roles|
  {
    if roles != [] {
      var front, last := roles[..|roles| - 1], roles[|roles| - 1];
      ListedOnce(front);
      assert last !in front;
      assert (set role | role in roles) == (set role | role in front) + {last};
    }
  }

  lemma ShownGame(room: Room, k: nat, s: Session, d: WeeklyDecisions)
    requires k < |room.players| && IsKnownRole(room.players[k].role) && Kept(s)
    requires room.currentWeek == PlayableWeek(s) && room.scenarioId == s.scenario.id
    ensures ShowsGame(GameView(room, room.players[k], s, SnapshotOf(d)), room, k, s, d.orders)
  {
    hide Kept, Report, PlayableWeek, AnalyticsFrom, PartIs, RolesWith, WeekCosts, Sum, NodeByRole;
    CountSubmitted(d.orders);
    ReadyMeansFour(d);
    ReportTotals(s.history);
    OwnPart(s, room.players[k].role);
  }

  lemma OwnPart(s: Session, role: Role)
    requires Kept(s) && IsKnownRole(role)
    ensures var own := AnalyticsFrom(Report(s.history).nodeAnalytics, role, 0);
            && (s.history == [] ==> own.None?)
            && (s.history != [] ==> own.Some? && PartIs(own.value, s.history, role))
  {
    hide Kept, Report, PartIs;
    if s.history == [] {
      ReportTotals(s.history);
    } else {
      ReportIs(s, role);
    }
  }

  /** In a started room the player in any seat is shown their own game. */
  lemma GameShows(w: World, roomId: string, k: nat)
    requires Sound(w) && Agrees(w) && roomId in w.rooms && w.rooms[roomId].status != Waiting
    requires k < |w.rooms[roomId].players|
    ensures GetSession(w, roomId).Ok?
    ensures var r, s := PlayerView(w, roomId, w.rooms[roomId].players[k].id), GetSession(w, roomId).value;
            && r.Ok?
            && ShowsGame(r.value, w.rooms[roomId], k, s,
                         CurrentOrders(w, roomId, MinInt(|s.history| + 1, s.maxWeeks)).orders)
  {
    hide Sound, Agrees, FindPlayer, GameView, LobbyView, SnapshotOf, CurrentOrders, PlayableWeek, ShowsGame, Kept;
    var room := w.rooms[roomId];
    RoomIsSound(w, roomId);
    OwnSeat(room, k);
    SeatRoleKnown(room, k);
    ActiveWeek(w, roomId);
    SessionIsKept(w, roomId);
    StartedInStep(w, roomId);
    var s := GetSession(w, roomId).value;
    ShownGame(room, k, s, CurrentOrders(w, roomId, PlayableWeek(s)));
  }

  lemma SeatRoleKnown(room: Room, k: nat)
    requires LobbyOk(room) && room.status != Waiting && k < |room.players|
    ensures IsKnownRole(room.players[k].role)
  {}

  /** The pending orders can be read exactly in a started room, and are those of the week that
      is on. */
  lemma PendingOutcome(w: World, roomId: string)
    requires Sound(w) && Agrees(w)
    ensures PendingDecisions(w, roomId).Ok? <==> roomId in w.rooms && w.rooms[roomId].status != Waiting
    ensures PendingDecisions(w, roomId).Err? ==> PendingDecisions(w, roomId).error == SessionNotFound
    ensures PendingDecisions(w, roomId).Ok? ==>
              && GetSession(w, roomId).Ok?
              && var s, p := GetSession(w, roomId).value, PendingDecisions(w, roomId).value;
                 var week := MinInt(|s.history| + 1, s.maxWeeks);
                 && p.roomId == roomId && p.week == week && p.orders == CurrentOrders(w, roomId, week).orders
                 && (p.ready <==> Complete(p.orders))
  {
    hide Sound, Agrees, PlayableWeek, RolesWith, Key;
    if GetSession(w, roomId).Ok? {
      SessionNotWaiting(w, roomId);
      ActiveWeek(w, roomId);
      var s := GetSession(w, roomId).value;
      CurrentOrdersSound(w, roomId, PlayableWeek(s));
      ReadyMeansFour(CurrentOrders(w, roomId, PlayableWeek(s)));
    } else if roomId in w.rooms {
      SessionOfRoom(w, roomId);
    }
  }
}
