/** The room and game services over the in-memory stores, call by call. Rooms and sessions
    are loaded as shallow copies, changed in place and saved, so for a while a store already
    shows part of a change. Each call is proved to answer and to end as if the stores had
    kept values. Models internal/usecase/room_service.go and internal/usecase/game_service.go. */
module Services {
  import opened Common
  import opened Scenarios
  import opened Chain
  import opened GameSessions
  import opened Rooms
  import opened LiveRooms
  import opened WeekDecisions
  import opened MemoryStores
  import opened Analytics
  import opened PlayerViews
  import W = Worlds
  import L = WorldLaws

  /** A room whose free seats at the table were given roles although no game started. */
  function LeakedStart(w: W.World, roomId: string): W.World
    requires roomId in w.rooms && EnsureProblem(w.rooms[roomId].players).None?
  {
    w.(rooms := w.rooms[roomId := w.rooms[roomId].(players := Completed(w.rooms[roomId].players))])
  }

  /** What a start leaves behind when no id can be made for its session: the roles it gave
      out are already in the store's seats. */
  ghost function AfterIdFailure(w: W.World, roomId: string, scenarioId: string, draws: seq<nat>): W.World {
    if W.StartScenario(w, roomId, scenarioId, draws).Ok? then
      W.StartScenarioFacts(w, roomId, scenarioId, draws);
      LeakedStart(w, roomId)
    else w
  }

  /** The one call for which sharing shows: a start that gets past every check of the room
      but fails to make an id is noticed exactly when some player had no role yet. */
  lemma IdFailureShowsIff(w: W.World, roomId: string, scenarioId: string, draws: seq<nat>)
    ensures AfterIdFailure(w, roomId, scenarioId, draws) !=
            W.StartStep(w, roomId, scenarioId, draws, None, W.NoFault, W.NoFault).0
            <==>
            && W.StartScenario(w, roomId, scenarioId, draws).Ok?
            && roomId in w.rooms
            && exists i :: 0 <= i < |w.rooms[roomId].players| && w.rooms[roomId].players[i].role.Unset?
  {
    hide W.StartScenario, Completed;
    if W.StartScenario(w, roomId, scenarioId, draws).Ok? {
      W.StartScenarioFacts(w, roomId, scenarioId, draws);
      var players := w.rooms[roomId].players;
      CompletedIsBijection(players);
      if i :| 0 <= i < |players| && players[i].role.Unset? {
        assert Completed(players)[i] != players[i];
        assert LeakedStart(w, roomId).rooms[roomId].players != w.rooms[roomId].players;
      } else {
        assert Completed(players) == players;
        assert LeakedStart(w, roomId).rooms == w.rooms;
      }
    }
  }

  /** The same in terms of what a caller can check before the call. */
  lemma IdFailureShowsInLobby(w: W.World, roomId: string, scenarioId: string, draws: seq<nat>)
    requires L.Sound(w)
    ensures AfterIdFailure(w, roomId, scenarioId, draws) !=
            W.StartStep(w, roomId, scenarioId, draws, None, W.NoFault, W.NoFault).0
            <==>
            && roomId in w.rooms && w.rooms[roomId].status == Waiting && |w.rooms[roomId].players| == SEATS
            && W.GetScenario(w, scenarioId).Ok? && Validate(W.GetScenario(w, scenarioId).value).None?
            && exists i :: 0 <= i < |w.rooms[roomId].players| && w.rooms[roomId].players[i].role.Unset?
  {
    hide AfterIdFailure, W.StartStep, W.StartScenario, Validate, L.RoomsSound, L.SessionsSound, L.IndexSound,
      L.DecisionsSound;
    L.StartScenarioIff(w, roomId, scenarioId, draws);
    IdFailureShowsIff(w, roomId, scenarioId, draws);
  }

  /** The calls that fill a room of one week, the players named in the order they join. */
  function FillRoom(names: seq<string>): seq<W.Call> {
    if names == [] then [W.CreateRoom(1, Some("r"), W.NoFault)]
    else
      var name := names[|names| - 1];
      FillRoom(names[..|names| - 1]) + [W.JoinRoom("r", name, Some(name), W.NoFault)]
  }

  function Seats(names: seq<string>): seq<Player> {
    seq(|names|, i requires 0 <= i < |names| => Player(names[i], names[i], Unset, true))
  }

  function RoomWith(players: seq<Player>, scenarios: W.Repository): W.World {
    W.World(map["r" := Room("r", Waiting, 0, 1, players, "")], map[], map[], map[], scenarios)
  }

  lemma JoinFills(players: seq<Player>, name: string, scenarios: W.Repository)
    requires name != "" && |players| < SEATS && forall i :: 0 <= i < |players| ==> players[i].name != name
    ensures W.Step(RoomWith(players, scenarios), W.JoinRoom("r", name, Some(name), W.NoFault)).0 ==
            RoomWith(players + [Player(name, name, Unset, true)], scenarios)
  {
    var w, v := RoomWith(players, scenarios), RoomWith(players + [Player(name, name, Unset, true)], scenarios);
    assert w.rooms["r" := v.rooms["r"]] == v.rooms;
  }

  /** Up to four players with different names can join a new room. */
  lemma {:induction false} RoomFilled(names: seq<string>, scenarios: W.Repository)
    requires |names| <= SEATS && "" !in names
    requires forall i, j :: 0 <= i < j < |names| ==> names[i] != names[j]
    ensures W.After(scenarios, FillRoom(names)) == RoomWith(Seats(names), scenarios)
  {
    hide W.Step, RoomWith;
    if names == [] {
      RoomCreated(scenarios);
      AfterCall(scenarios, [], W.CreateRoom(1, Some("r"), W.NoFault));
    } else {
      var front, name := names[..|names| - 1], names[|names| - 1];
      RoomFilled(front, scenarios);
      AfterCall(scenarios, FillRoom(front), W.JoinRoom("r", name, Some(name), W.NoFault));
      JoinFills(Seats(front), name, scenarios);
      assert Seats(front) + [Player(name, name, Unset, true)] == Seats(names);
    }
  }

  lemma AfterCall(scenarios: W.Repository, calls: seq<W.Call>, call: W.Call)
    ensures W.After(scenarios, calls + [call]) == W.Step(W.After(scenarios, calls), call).0
  {
    hide W.Step;
    assert (calls + [call])[..|calls|] == calls;
  }

  /** A run after which it shows: four players have joined and none has a role. */
  lemma IdFailureExample(scenarios: W.Repository, draws: seq<nat>)
    requires Validate(scenarios.default).None?
    ensures var w := W.After(scenarios, FillRoom(["A", "B", "C", "D"]));
            AfterIdFailure(w, "r", "", draws) != W.StartStep(w, "r", "", draws, None, W.NoFault, W.NoFault).0
  {
    hide AfterIdFailure, W.StartStep, W.After, W.Step, Validate, W.StartScenario;
    var names := ["A", "B", "C", "D"];
    RoomFilled(names, scenarios);
    var w := W.After(scenarios, FillRoom(names));
    assert w.rooms["r"].players[0].role.Unset?;
    FullRoomStarts(w, Seats(names), draws);
    IdFailureShowsIff(w, "r", "", draws);
  }

  lemma RoomCreated(scenarios: W.Repository)
    ensures W.Step(W.EmptyWorld(scenarios), W.CreateRoom(1, Some("r"), W.NoFault)).0 == RoomWith([], scenarios)
  {}

  lemma FullRoomStarts(w: W.World, players: seq<Player>, draws: seq<nat>)
    requires |players| == SEATS && forall i :: 0 <= i < |players| ==> players[i].role.Unset?
    requires w == RoomWith(players, w.scenarios) && Validate(w.scenarios.default).None?
    ensures W.StartScenario(w, "r", "", draws).Ok?
  {
    hide Validate, DemandTable;
    RolesProblemIff(players, 4);
  }

  // ---------- Requests, and what stores of values answer ----------

  datatype Request = Change(call: W.Call) | ReadPending(roomId: string) | ReadPlayer(roomId: string, playerId: string)

  datatype Answer =
    | Changed(reply: W.Reply)
    | PendingRead(pending: Result<Snapshot>)
    | PlayerRead(state: Result<PlayerState>)

  function AnswerTo(w: W.World, request: Request): Answer {
    match request
    case Change(call) => Changed(W.Step(w, call).1)
    case ReadPending(roomId) => PendingRead(PendingDecisions(w, roomId))
    case ReadPlayer(roomId, playerId) => PlayerRead(PlayerView(w, roomId, playerId))
  }

  function WorldAfter(w: W.World, request: Request): W.World {
    match request
    case Change(call) => W.Step(w, call).0
    case _ => w
  }

  /** A start that gets no id goes unnoticed if it is refused earlier anyway, or if there was
      no role to give out. */
  ghost predicate Unnoticed(w: W.World, request: Request) {
    request.Change? && request.call.StartGame? && request.call.newId.None? ==>
      var call := request.call;
      W.StartScenario(w, call.roomId, call.scenarioId, call.draws).Ok? && call.roomId in w.rooms ==>
        forall i :: 0 <= i < |w.rooms[call.roomId].players| ==> !w.rooms[call.roomId].players[i].role.Unset?
  }

  /** The changes among the requests. */
  function ChangesOf(requests: seq<Request>): seq<W.Call> {
    if requests == [] then []
    else
      var last := requests[|requests| - 1];
      ChangesOf(requests[..|requests| - 1]) + (if last.Change? then [last.call] else [])
  }

  /** What stores of values hold after the first i requests. */
  ghost function Held(scenarios: W.Repository, requests: seq<Request>, i: nat): W.World
    requires i <= |requests|
  {
    W.After(scenarios, ChangesOf(requests[..i]))
  }

  lemma HeldGrows(scenarios: W.Repository, requests: seq<Request>, i: nat)
    requires i < |requests|
    ensures Held(scenarios, requests, i + 1) == WorldAfter(Held(scenarios, requests, i), requests[i])
  {
    hide W.Step;
    assert requests[..i + 1][..i] == requests[..i];
    var before := ChangesOf(requests[..i]);
    if requests[i].Change? {
      AfterCall(scenarios, before, requests[i].call);
    } else {
      assert before + [] == before;
    }
  }

  /** The two early ends of a start. */
  lemma StartEnds(w: W.World, roomId: string, scenarioId: string, draws: seq<nat>, newId: Option<string>)
    ensures var compiled := W.StartScenario(w, roomId, scenarioId, draws);
            var (v, reply) := W.StartStep(w, roomId, scenarioId, draws, newId, W.NoFault, W.NoFault);
            && (compiled.Err? ==> v == w == AfterIdFailure(w, roomId, scenarioId, draws)
                                  && reply == W.Refused(compiled.error))
            && (compiled.Ok? && newId.None? ==> reply == W.Refused(IdFailure))
  {
    hide W.StartScenario, Completed;
  }

  /** What AdvanceWeek does once it has read a session and its orders. */
  ghost function PlayStep(w: W.World, roomId: string, s: Session, orders: Decisions): (W.World, W.Reply)
    requires roomId in w.rooms
  {
    if AdvanceProblem(s, orders).Some? then (w, W.Refused(AdvanceProblem(s, orders).value))
    else W.CommitWeek(w, roomId, s, orders, W.NoFault, W.NoFault, W.NoFault)
  }

  lemma AdvanceByPlaying(w: W.World, roomId: string)
    requires W.AdvanceTarget(w, roomId).Ok?
    ensures roomId in w.rooms
    ensures W.AdvanceStep(w, roomId, W.NoFault, W.NoFault, W.NoFault) ==
            PlayStep(w, roomId, W.AdvanceTarget(w, roomId).value.0, W.AdvanceTarget(w, roomId).value.1)
  {
    hide W.CommitWeek, AdvanceProblem;
  }

  class Server {
    const rooms: RoomStore
    const sessions: SessionStore
    const decisions: DecisionStore
    const scenarios: W.Repository

    constructor (scenarios: W.Repository)
      ensures Valid() && World() == W.EmptyWorld(scenarios) && this.scenarios == scenarios
      ensures fresh(rooms) && fresh(sessions) && fresh(decisions)
      ensures SeatsOf(rooms.rooms) == {} && PipesOf(sessions.sessions) == {}
    {
      this.rooms := new RoomStore();
      this.sessions := new SessionStore();
      this.decisions := new DecisionStore();
      this.scenarios := scenarios;
    }

    ghost predicate Valid()
      reads rooms, sessions
    {
      && rooms.Valid() && Separate(rooms.rooms)
      && sessions.Valid() && Owned(sessions.sessions)
    }

    /** The contents of the stores as values. */
    ghost function World(): W.World
      requires Valid()
      reads rooms, SeatsOf(rooms.rooms), sessions, PipesOf(sessions.sessions), decisions
    {
      W.World(rooms.Value(), sessions.Value(), sessions.byRoomId, decisions.decisions, scenarios)
    }

    /** Sessions look the same as long as their store and their pipelines are untouched. */
    twostate lemma SessionsUntouched()
      requires old(Valid()) && unchanged(sessions)
      requires forall p :: p in old(PipesOf(sessions.sessions)) ==> unchanged(p)
      ensures sessions.Value() == old(sessions.Value())
    {
      forall id | id in sessions.sessions
        ensures SessionOf(sessions.sessions[id]) == old(SessionOf(sessions.sessions[id]))
      {
        assert sessions.sessions[id].goods in old(PipesOf(sessions.sessions));
        assert sessions.sessions[id].orders in old(PipesOf(sessions.sessions));
      }
    }

    twostate lemma RoomsUntouched()
      requires old(Valid()) && unchanged(rooms)
      requires forall p :: p in old(SeatsOf(rooms.rooms)) ==> unchanged(p)
      ensures rooms.Value() == old(rooms.Value())
    {
      forall id | id in rooms.rooms ensures RoomOf(rooms.rooms[id]) == old(RoomOf(rooms.rooms[id])) {
        assert rooms.rooms[id].players in old(SeatsOf(rooms.rooms));
      }
    }

    /** Changing the seats of one stored room changes the value of that room alone. */
    twostate lemma RoomTouched(roomId: string)
      requires old(Valid()) && unchanged(rooms) && unchanged(sessions) && unchanged(decisions)
      requires roomId in rooms.rooms
      requires forall p :: p in old(SeatsOf(rooms.rooms)) && p != rooms.rooms[roomId].players ==> unchanged(p)
      requires forall p :: p in old(PipesOf(sessions.sessions)) ==> unchanged(p)
      ensures Valid()
      ensures World() == old(World()).(rooms := old(World()).rooms[roomId := RoomOf(rooms.rooms[roomId])])
    {
      SessionsUntouched();
      forall id | id in rooms.rooms && id != roomId
        ensures RoomOf(rooms.rooms[id]) == old(RoomOf(rooms.rooms[id]))
      {
        assert rooms.rooms[id].players in old(SeatsOf(rooms.rooms));
      }
    }

    /** A copy of a stored room, sharing its seats. */
    method LoadRoom(roomId: string) returns (room: LiveRoom?)
      requires Valid()
      ensures Valid() && World() == old(World())
      ensures room == null <==> roomId !in World().rooms
      ensures room != null ==>
                && fresh(room) && room.Valid() && room.id == roomId && roomId in rooms.rooms
                && room.players == rooms.rooms[roomId].players && room.count == rooms.rooms[roomId].count
                && room.Value() == World().rooms[roomId] == RoomOf(rooms.rooms[roomId])
    {
      room := rooms.GetByID(roomId);
      SessionsUntouched();
      RoomsUntouched();
    }

    method KeepRoom(room: LiveRoom)
      requires Valid() && room.Valid()
      requires forall id :: id in rooms.rooms && id != room.id ==> rooms.rooms[id].players != room.players
      modifies rooms
      ensures Valid()
      ensures World() == old(World()).(rooms := old(World()).rooms[room.id := old(room.Value())])
      ensures SeatsOf(rooms.rooms) <= old(SeatsOf(rooms.rooms)) + {room.players}
    {
      hide RoomsOf, SessionsOf, Owned, Separate;
      SeparatePut(rooms.rooms, room.id, RoomRecordOf(room));
      rooms.Save(room);
      SessionsUntouched();
    }

    // ---------- Lobby ----------

    method CreateRoom(maxWeeks: int, newId: Option<string>) returns (reply: W.Reply)
      requires Valid()
      modifies rooms
      ensures Valid()
      ensures fresh(SeatsOf(rooms.rooms) - old(SeatsOf(rooms.rooms)))
      ensures (World(), reply) == W.CreateStep(old(World()), maxWeeks, newId, W.NoFault)
    {
      if newId.None? {
        return W.Refused(IdFailure);
      }
      var problem, room := LiveRoom.NewRoom(newId.value, maxWeeks);
      SessionsUntouched();
      RoomsUntouched();
      if problem.Some? {
        return W.Refused(problem.value);
      }
      KeepRoom(room);
      reply := W.RoomReply(room.Value());
    }

    method JoinRoom(roomId: string, name: string, newId: Option<string>) returns (reply: W.Reply)
      requires Valid()
      modifies rooms, SeatsOf(rooms.rooms)
      ensures Valid()
      ensures SeatsOf(rooms.rooms) <= old(SeatsOf(rooms.rooms))
      ensures (World(), reply) == W.JoinStep(old(World()), roomId, name, newId, W.NoFault)
    {
      hide AddProblem, Added, RoomsOf, SessionsOf, Server.World, RoomStore.Valid, SessionStore.Valid, Separate, Owned,
        RoomOf;
      var room := LoadRoom(roomId);
      if room == null {
        return W.Refused(RoomNotFound);
      }
      if newId.None? {
        return W.Refused(IdFailure);
      }
      ghost var w, r := World(), room.Value();
      var problem := AddLoaded(room, Player(newId.value, name, Unset, false), w, r);
      if problem.Some? {
        return W.Refused(problem.value);
      }
      reply := KeepChanged(room, w, r);
    }

    /** Taking a seat in the loaded copy writes a seat it shares with the store. */
    method AddLoaded(room: LiveRoom, player: Player, ghost w: W.World, ghost r: Room) returns (problem: Option<Error>)
      requires Valid() && room.Valid() && w == World() && r == room.Value()
      requires r.id in w.rooms && w.rooms[r.id] == r
      requires room.id in rooms.rooms && room.players == rooms.rooms[room.id].players
      requires r == RoomOf(rooms.rooms[room.id]) && room.count == rooms.rooms[room.id].count
      modifies room`count, room.players
      ensures Valid() && room.Valid() && problem == AddProblem(r, player.name)
      ensures problem.Some? ==> World() == w
      ensures problem.None? ==> room.Value() == Added(r, player) && OnlyRoomShown(w, r.id)
    {
      hide RoomsOf, SessionsOf, AddProblem, Added, RoomStore.Valid, SessionStore.Valid, Separate, Owned;
      problem := room.AddPlayer(player);
      RoomTouched(room.id);
      if problem.Some? {
        SameRoom(w, r.id, r);
      }
    }

    /** The stores show w, but for one room. */
    ghost predicate OnlyRoomShown(w: W.World, roomId: string)
      requires Valid()
      reads rooms, SeatsOf(rooms.rooms), sessions, PipesOf(sessions.sessions), decisions
    {
      roomId in World().rooms && World() == w.(rooms := w.rooms[roomId := World().rooms[roomId]])
    }

    /** Saving the changed copy makes the store show it whole. */
    method KeepChanged(room: LiveRoom, ghost w: W.World, ghost r: Room) returns (reply: W.Reply)
      requires Valid() && room.Valid() && room.id == r.id && OnlyRoomShown(w, r.id)
      requires room.id in rooms.rooms && room.players == rooms.rooms[room.id].players
      modifies rooms
      ensures Valid()
      ensures SeatsOf(rooms.rooms) <= old(SeatsOf(rooms.rooms)) + {room.players}
      ensures World() == W.SaveRoom(w, old(room.Value()), W.NoFault) && reply == W.RoomReply(old(room.Value()))
    {
      hide RoomsOf, SessionsOf, RoomStore.Valid, SessionStore.Valid;
      ghost var shown := World().rooms[r.id];
      reply := W.RoomReply(room.Value());
      KeepRoom(room);
      OverwrittenRoom(w.rooms, r.id, shown, reply.room);
    }

    method AssignRole(roomId: string, playerId: string, role: Role) returns (reply: W.Reply)
      requires Valid()
      modifies rooms, SeatsOf(rooms.rooms)
      ensures Valid()
      ensures SeatsOf(rooms.rooms) <= old(SeatsOf(rooms.rooms))
      ensures (World(), reply) == W.AssignStep(old(World()), roomId, playerId, role, W.NoFault)
    {
      hide AssignProblem, Assigned, RoomsOf, SessionsOf, Server.World, RoomStore.Valid, SessionStore.Valid, Separate,
        Owned, RoomOf;
      var room := LoadRoom(roomId);
      if room == null {
        return W.Refused(RoomNotFound);
      }
      ghost var w, r := World(), room.Value();
      var problem := AssignLoaded(room, playerId, role, w, r);
      if problem.Some? {
        return W.Refused(problem.value);
      }
      reply := KeepChanged(room, w, r);
    }

    method AssignLoaded(room: LiveRoom, playerId: string, role: Role, ghost w: W.World, ghost r: Room)
      returns (problem: Option<Error>)
      requires Valid() && room.Valid() && w == World() && r == room.Value()
      requires r.id in w.rooms && w.rooms[r.id] == r
      requires room.id in rooms.rooms && room.players == rooms.rooms[room.id].players
      requires r == RoomOf(rooms.rooms[room.id]) && room.count == rooms.rooms[room.id].count
      modifies room.players
      ensures Valid() && room.Valid() && problem == AssignProblem(r, playerId, role)
      ensures problem.Some? ==> World() == w
      ensures problem.None? ==> room.Value() == Assigned(r, playerId, role) && OnlyRoomShown(w, r.id)
    {
      hide RoomsOf, SessionsOf, AssignProblem, Assigned, RoomStore.Valid, SessionStore.Valid, Separate, Owned;
      problem := room.AssignRole(playerId, role);
      RoomTouched(room.id);
      if problem.Some? {
        assert RoomOf(rooms.rooms[room.id]) == r;
        SameRoom(w, r.id, r);
      }
    }

    // ---------- Sessions ----------

    twostate lemma PipesUntouched(id: string)
      requires id in sessions.sessions && unchanged(sessions)
      requires forall p :: p in old(PipesOf(sessions.sessions)) && p.owner == id ==> unchanged(p)
      requires Tagged(sessions.sessions[id].goods, sessions.sessions[id].orders, id)
      ensures SessionOf(sessions.sessions[id]) == old(SessionOf(sessions.sessions[id]))
    {
      assert sessions.sessions[id].goods in old(PipesOf(sessions.sessions));
      assert sessions.sessions[id].orders in old(PipesOf(sessions.sessions));
    }

    twostate lemma PipesTouched(id: string)
      requires old(Valid()) && unchanged(sessions) && id in sessions.sessions
      requires forall p :: p in old(PipesOf(sessions.sessions)) && p.owner != id ==> unchanged(p)
      ensures sessions.Value() == old(sessions.Value())[id := SessionOf(sessions.sessions[id])]
    {
      hide SessionOf, PipesOf, RoomStore.Valid;
      forall other | other in sessions.sessions && other != id
        ensures SessionOf(sessions.sessions[other]) == old(SessionOf(sessions.sessions[other]))
      {
        PipesUntouched(other);
      }
    }

    /** Moving the pipelines of one stored session changes the value of that session alone. */
    twostate lemma SessionTouched(id: string)
      requires old(Valid()) && unchanged(rooms) && unchanged(sessions) && unchanged(decisions)
      requires id in sessions.sessions
      requires forall p :: p in old(SeatsOf(rooms.rooms)) ==> unchanged(p)
      requires forall p :: p in old(PipesOf(sessions.sessions)) && p.owner != id ==> unchanged(p)
      ensures Valid()
      ensures World() == old(World()).(sessions := old(World()).sessions[id := SessionOf(sessions.sessions[id])])
    {
      hide SessionsOf, SessionOf, RoomsOf;
      RoomsUntouched();
      PipesTouched(id);
    }

    /** A copy of the session stored for a room, sharing its pipelines. */
    method LoadSession(roomId: string) returns (session: GameSession?)
      requires Valid()
      ensures Valid() && World() == old(World())
      ensures session == null <==> W.GetSession(World(), roomId).Err?
      ensures session != null ==>
                && fresh(session) && W.GetSession(World(), roomId) == Ok(session.Value())
                && session.id in World().sessions && World().sessions[session.id] == session.Value()
                && session.id in sessions.sessions && session.id == sessions.byRoomId[roomId]
                && session.Value() == SessionOf(sessions.sessions[session.id])
                && session.goodsPipelines == sessions.sessions[session.id].goods
                && session.orderPipelines == sessions.sessions[session.id].orders
                && Tagged(session.goodsPipelines, session.orderPipelines, session.id)
                && session.scenario.consumerDemand != []
    {
      session := sessions.GetByRoomID(roomId);
      SessionsUntouched();
      RoomsUntouched();
    }

    method KeepSession(session: GameSession)
      requires Valid() && session.scenario.consumerDemand != []
      requires Tagged(session.goodsPipelines, session.orderPipelines, session.id)
      modifies sessions
      ensures Valid()
      ensures World() == old(World()).(
                sessions := old(World()).sessions[session.id := old(session.Value())],
                sessionOf := old(World()).sessionOf[session.roomId := session.id])
      ensures PipesOf(sessions.sessions) <=
              old(PipesOf(sessions.sessions)) + {session.goodsPipelines, session.orderPipelines}
    {
      hide RoomsOf, SessionsOf, PipesOf, Owned, Separate;
      OwnedPut(sessions.sessions, session.id, SessionRecordOf(session));
      sessions.Save(session);
      RoomsUntouched();
    }

    // ---------- Start ----------

    /** Resolves and compiles the scenario of a game. */
    method Compile(scenarioId: string, maxWeeks: int, draws: seq<nat>) returns (r: Result<Scenario>)
      requires Valid()
      ensures Valid() && World() == old(World())
      ensures r == match W.GetScenario(World(), scenarioId) {
                     case Ok(scenario) => Materialized(scenario, maxWeeks, draws)
                     case Err(e) => Err(e)
                   }
    {
      hide Materialized;
      var scenario := if scenarioId == "" then Ok(scenarios.default)
                      else if scenarioId in scenarios.byId then Ok(scenarios.byId[scenarioId]) else Err(RoomNotFound);
      if scenario.Err? {
        return Err(scenario.error);
      }
      r := MaterializeDemand(scenario.value, maxWeeks, draws);
      SessionsUntouched();
      RoomsUntouched();
    }

    /** Starting the loaded copy gives out roles in the seats it shares with the store. */
    method StartLoaded(room: LiveRoom, ghost w: W.World, ghost r: Room) returns (problem: Option<Error>)
      requires Valid() && room.Valid() && w == World() && r == room.Value()
      requires room.id in rooms.rooms && room.players == rooms.rooms[room.id].players
      requires r == RoomOf(rooms.rooms[room.id]) && room.count == rooms.rooms[room.id].count
      modifies room`status, room`currentWeek, room.players
      ensures Valid() && room.Valid() && problem == StartProblem(r)
      ensures problem.Some? ==> World() == w.(rooms := w.rooms[r.id := r])
      ensures problem.None? ==>
                && room.Value() == Started(r)
                && World() == w.(rooms := w.rooms[r.id := r.(players := Completed(r.players))])
    {
      hide RoomsOf, SessionsOf, StartProblem, Completed, RoomStore.Valid, SessionStore.Valid, Separate, Owned;
      problem := room.Start();
      RoomTouched(room.id);
    }

    lemma SameRoom(w: W.World, roomId: string, r: Room)
      requires roomId in w.rooms && w.rooms[roomId] == r
      ensures w.(rooms := w.rooms[roomId := r]) == w
    {
      assert w.rooms[roomId := r] == w.rooms;
    }

    /** The writes that start a game. */
    method KeepStarted(room: LiveRoom, session: GameSession, ghost w: W.World, ghost r: Room, ghost s: Session)
      requires Valid() && room.Valid() && StartProblem(r).None? && room.id == r.id
      requires World() == w.(rooms := w.rooms[r.id := r.(players := Completed(r.players))])
      requires room.Value() == Started(r) && session.Value() == s && s.scenario.consumerDemand != []
      requires Tagged(session.goodsPipelines, session.orderPipelines, session.id)
      requires room.id in rooms.rooms && room.players == rooms.rooms[room.id].players
      modifies rooms, sessions, room`currentWeek, room`scenarioId
      ensures Valid()
      ensures SeatsOf(rooms.rooms) <= old(SeatsOf(rooms.rooms)) + {room.players}
      ensures PipesOf(sessions.sessions) <=
              old(PipesOf(sessions.sessions)) + {session.goodsPipelines, session.orderPipelines}
      ensures World() == W.SaveSession(W.SaveRoom(w, W.StartedRoom(r, s), W.NoFault), s, W.NoFault)
    {
      hide RoomsOf, SessionsOf, Completed, SessionStore.Valid;
      NameGame(room, session);
      KeepRoom(room);
      KeepSession(session);
      OverwrittenRoom(w.rooms, r.id, r.(players := Completed(r.players)), W.StartedRoom(r, s));
    }

    method NameGame(room: LiveRoom, session: GameSession)
      requires Valid() && room.Valid()
      modifies room`currentWeek, room`scenarioId
      ensures Valid() && World() == old(World()) && session.Value() == old(session.Value())
      ensures room.Value() == old(room.Value()).(currentWeek := W.PlayableWeek(session.Value()),
                                                 scenarioId := session.Value().scenario.id)
    {
      room.currentWeek := W.PlayableWeek(session.Value());
      room.scenarioId := session.scenario.id;
      SessionsUntouched();
      RoomsUntouched();
    }

    lemma OverwrittenRoom(m: map<string, Room>, id: string, shown: Room, kept: Room)
      ensures m[id := shown][id := kept] == m[id := kept]
    {}

    /** A start that fails to make an id leaves the roles it gave out in the store; in every
        other case the call ends as over values. NewGameSession never refuses here. */
    method StartGame(roomId: string, scenarioId: string, draws: seq<nat>, newId: Option<string>)
      returns (reply: W.Reply)
      requires Valid()
      modifies rooms, sessions, SeatsOf(rooms.rooms)
      ensures Valid()
      ensures SeatsOf(rooms.rooms) <= old(SeatsOf(rooms.rooms))
      ensures fresh(PipesOf(sessions.sessions) - old(PipesOf(sessions.sessions)))
      ensures reply == W.StartStep(old(World()), roomId, scenarioId, draws, newId, W.NoFault, W.NoFault).1
      ensures World() == if newId.None? then AfterIdFailure(old(World()), roomId, scenarioId, draws)
                         else W.StartStep(old(World()), roomId, scenarioId, draws, newId, W.NoFault, W.NoFault).0
    {
      hide RoomsOf, SessionsOf, StartProblem, Completed, Started, FreshSession, NewSessionProblem, W.StartScenario,
        RoomStore.Valid, SessionStore.Valid, Separate, Owned, Server.World, RoomOf, W.StartStep;
      ghost var w := World();
      StartEnds(w, roomId, scenarioId, draws, newId);
      var problem, room, scenario := PrepareStart(roomId, scenarioId, draws);
      if problem.Some? {
        return W.Refused(problem.value);
      }
      if newId.None? {
        return W.Refused(IdFailure);
      }
      W.StartScenarioFacts(w, roomId, scenarioId, draws);
      reply := CreateGame(room, scenario.value, newId.value, w, w.rooms[roomId], scenarioId, draws);
    }

    /** Everything that comes before the id of the session: the roles are then given out. */
    method PrepareStart(roomId: string, scenarioId: string, draws: seq<nat>)
      returns (problem: Option<Error>, room: LiveRoom?, scenario: Option<Scenario>)
      requires Valid()
      modifies SeatsOf(rooms.rooms)
      ensures Valid() && unchanged(rooms)
      ensures W.StartScenario(old(World()), roomId, scenarioId, draws) ==
              if problem.Some? then Err(problem.value)
              else if scenario.Some? then Ok(scenario.value)
              else Err(IdFailure)
      ensures problem.Some? ==> World() == old(World())
      ensures problem.None? ==>
                && scenario.Some? && room != null && fresh(room) && room.Valid()
                && World() == AfterIdFailure(old(World()), roomId, scenarioId, draws)
                && roomId in old(World()).rooms && old(World()).rooms[roomId].id == room.id == roomId
                && roomId in rooms.rooms && room.players == rooms.rooms[roomId].players
                && StartProblem(old(World()).rooms[roomId]).None?
                && room.Value() == Started(old(World()).rooms[roomId])
    {
      hide RoomsOf, SessionsOf, StartProblem, Completed, Started, Materialized, SessionStore.Valid;
      scenario := None;
      room := LoadRoom(roomId);
      if room == null {
        problem := Some(RoomNotFound);
        return;
      }
      ghost var w, r := World(), room.Value();
      var compiled := Compile(scenarioId, room.maxWeeks, draws);
      if compiled.Err? {
        problem := Some(compiled.error);
        return;
      }
      problem := StartLoaded(room, w, r);
      if problem.Some? {
        SameRoom(w, roomId, r);
        return;
      }
      scenario := Some(compiled.value);
    }

    method CreateGame(room: LiveRoom, scenario: Scenario, id: string, ghost w: W.World, ghost r: Room,
                      ghost scenarioId: string, ghost draws: seq<nat>)
      returns (reply: W.Reply)
      requires Valid() && room.Valid() && r.id in w.rooms && w.rooms[r.id] == r
      requires W.StartScenario(w, r.id, scenarioId, draws) == Ok(scenario) && StartProblem(r).None?
      requires World() == w.(rooms := w.rooms[r.id := r.(players := Completed(r.players))])
      requires room.Value() == Started(r)
      requires room.id in rooms.rooms && room.players == rooms.rooms[room.id].players
      modifies rooms, sessions, room`currentWeek, room`scenarioId
      ensures Valid()
      ensures SeatsOf(rooms.rooms) <= old(SeatsOf(rooms.rooms))
      ensures fresh(PipesOf(sessions.sessions) - old(PipesOf(sessions.sessions)))
      ensures (World(), reply) == W.StartStep(w, r.id, scenarioId, draws, Some(id), W.NoFault, W.NoFault)
    {
      hide RoomsOf, SessionsOf, StartProblem, Completed, FreshSession, NewSessionProblem, W.StartScenario,
        RoomStore.Valid, SessionStore.Valid, Separate, Owned;
      label entered:
      var problem, session := GameSession.NewGameSession(id, room.id, scenario, room.maxWeeks);
      SessionsUntouched@entered();
      RoomsUntouched@entered();
      if problem.Some? {
        reply := W.Refused(problem.value);
      } else {
        ghost var s := session.Value();
        FreshReads(id, r.id, scenario, r.maxWeeks);
        L.StartedSessionSound(w, r.id, scenarioId, draws, id);
        SoundDemand(s, id, W.StartedRoom(r, s));
        reply := W.SessionReply(session.Value());
        KeepStarted(room, session, w, r, s);
      }
      L.StartedSessionSound(w, r.id, scenarioId, draws, id);
    }

    lemma FreshReads(id: string, roomId: string, scenario: Scenario, maxWeeks: int)
      ensures var s := FreshSession(id, roomId, scenario, maxWeeks);
              s.id == id && s.roomId == roomId && s.scenario == scenario && s.maxWeeks == maxWeeks
    {}

    lemma SoundDemand(s: Session, id: string, room: Room)
      requires L.SessionSound(s, id, room)
      ensures s.scenario.consumerDemand != []
    {}

    // ---------- Weeks ----------

    method SubmitOrder(roomId: string, playerId: string, order: int) returns (reply: W.Reply)
      requires Valid()
      modifies decisions
      ensures Valid()
      ensures (World(), reply) == W.SubmitStep(old(World()), roomId, playerId, order, W.NoFault)
    {
      hide RoomsOf, SessionsOf, RoleOfPlayer, Key, SnapshotOf, RoomStore.Valid, SessionStore.Valid, Separate, Owned;
      if order < 0 {
        return W.Refused(NegativeDecision(Unset));
      }
      var room := LoadRoom(roomId);
      if room == null {
        return W.Refused(RoomNotFound);
      }
      var role := RoleIn(room, playerId);
      if role.Err? {
        return W.Refused(role.error);
      }
      var session := LoadSession(roomId);
      if session == null {
        return W.Refused(SessionNotFound);
      }
      if session.status != Active {
        return W.Refused(SessionNotActive);
      }
      var week := W.PlayableWeek(session.Value());
      var stored := StoredDecisions(roomId, week);
      var d := if stored.Some? then stored.value else WeeklyDecisions(roomId, week, map[]);
      assert d == W.CurrentOrders(old(World()), roomId, week);
      d := d.(orders := d.orders[role.value := order]);
      KeepDecisions(d);
      label kept:
      var snapshot := TakeSnapshot(d);
      SessionsUntouched@kept();
      RoomsUntouched@kept();
      reply := W.SnapshotReply(snapshot);
    }

    method RoleIn(room: LiveRoom, playerId: string) returns (role: Result<Role>)
      requires Valid() && room.Valid()
      ensures Valid() && World() == old(World())
      ensures role == RoleOfPlayer(old(room.Value()), playerId)
    {
      role := room.FindRole(playerId);
      SessionsUntouched();
      RoomsUntouched();
    }

    method StoredDecisions(roomId: string, week: int) returns (d: Option<WeeklyDecisions>)
      requires Valid()
      ensures Valid() && World() == old(World())
      ensures d == if W.GetDecisions(World(), roomId, week).Ok? then Some(W.GetDecisions(World(), roomId, week).value)
                   else None
    {
      d := decisions.GetByRoomAndWeek(roomId, week);
      SessionsUntouched();
      RoomsUntouched();
    }

    method KeepDecisions(d: WeeklyDecisions)
      requires Valid()
      modifies decisions
      ensures Valid()
      ensures World() == W.SaveDecisions(old(World()), d, W.NoFault)
    {
      decisions.Save(d);
      SessionsUntouched();
      RoomsUntouched();
    }

    method DropDecisions(roomId: string, week: int)
      requires Valid()
      modifies decisions
      ensures Valid()
      ensures World() == W.DeleteDecisions(old(World()), roomId, week, W.NoFault)
    {
      decisions.DeleteByRoomAndWeek(roomId, week);
      SessionsUntouched();
      RoomsUntouched();
    }

    /** The session is a copy of a stored one, sharing its pipelines. */
    ghost predicate Loaded(session: GameSession)
      reads this, sessions, session, session.goodsPipelines, session.orderPipelines
    {
      && session.id in sessions.sessions
      && session.goodsPipelines == sessions.sessions[session.id].goods
      && session.orderPipelines == sessions.sessions[session.id].orders
      && session.Value() == SessionOf(sessions.sessions[session.id])
      && Tagged(session.goodsPipelines, session.orderPipelines, session.id)
      && session.scenario.consumerDemand != []
    }

    /** Playing the loaded copy moves the shared pipelines under the stored session too, so
        that the store shows neither the old week nor the new one. */
    method PlayLoaded(session: GameSession, orders: Decisions, ghost w: W.World, ghost s: Session)
      returns (played: Result<WeekState>, ghost shown: Session)
      requires Valid() && Loaded(session) && w == World() && s == session.Value()
      modifies session, session.goodsPipelines, session.orderPipelines
      ensures Valid() && session.id == s.id && session.roomId == s.roomId && session.scenario == s.scenario
      ensures session.goodsPipelines == old(session.goodsPipelines)
      ensures session.orderPipelines == old(session.orderPipelines)
      ensures World() == w.(sessions := w.sessions[s.id := shown])
      ensures match AdvanceProblem(s, orders) {
                case Some(e) => played == Err(e) && shown == s
                case None => played == Ok(NextWeek(s, orders)) && session.Value() == Advanced(s, orders)
              }
    {
      hide RoomsOf, SessionsOf, RoomStore.Valid, SessionStore.Valid, Separate, Owned, Advanced, NextWeek,
        AdvanceProblem, Server.World;
      played := session.AdvanceWeek(orders);
      SessionTouched(s.id);
      shown := SessionOf(sessions.sessions[s.id]);
    }

    /** The writes that end a week, over a store that shows the session half changed. */
    method CommitLoaded(room: LiveRoom, session: GameSession, week: int, ghost w: W.World, ghost s: Session,
                        ghost shown: Session, ghost orders: Decisions)
      requires Valid() && room.Valid() && Complete(orders)
      requires World() == w.(sessions := w.sessions[s.id := shown])
      requires session.id == s.id && session.roomId == s.roomId && session.scenario.consumerDemand != []
      requires Tagged(session.goodsPipelines, session.orderPipelines, s.id)
      requires session.Value() == Advanced(s, orders) && week == W.PlayableWeek(s)
      requires room.id in rooms.rooms && room.players == rooms.rooms[room.id].players
      requires room.id in w.rooms && room.Value() == w.rooms[room.id]
      modifies rooms, sessions, decisions, room`currentWeek, room`status
      ensures Valid()
      ensures SeatsOf(rooms.rooms) <= old(SeatsOf(rooms.rooms)) + {room.players}
      ensures PipesOf(sessions.sessions) <=
              old(PipesOf(sessions.sessions)) + {session.goodsPipelines, session.orderPipelines}
      ensures World() == W.CommitWeek(w, room.id, s, orders, W.NoFault, W.NoFault, W.NoFault).0
    {
      hide RoomsOf, SessionsOf, Key, Advanced, NextWeek, RoomStore.Valid, SessionStore.Valid, Separate, Owned;
      MarkRoom(room, session);
      KeepSession(session);
      KeepPlayed(room, week);
      Overwritten(w.sessions, s.id, shown, session.Value());
    }

    method MarkRoom(room: LiveRoom, session: GameSession)
      requires Valid() && room.Valid()
      modifies room`currentWeek, room`status
      ensures Valid() && World() == old(World()) && session.Value() == old(session.Value())
      ensures room.Value() == old(room.Value()).(currentWeek := W.PlayableWeek(session.Value()),
                                                 status := session.Value().status)
    {
      room.currentWeek := W.PlayableWeek(session.Value());
      room.status := session.status;
      SessionsUntouched();
      RoomsUntouched();
    }

    method KeepPlayed(room: LiveRoom, week: int)
      requires Valid() && room.Valid()
      requires room.id in rooms.rooms && room.players == rooms.rooms[room.id].players
      modifies rooms, decisions
      ensures Valid()
      ensures SeatsOf(rooms.rooms) <= old(SeatsOf(rooms.rooms)) + {room.players}
      ensures World() == W.DeleteDecisions(W.SaveRoom(old(World()), old(room.Value()), W.NoFault), room.id, week,
                                           W.NoFault)
    {
      KeepRoom(room);
      DropDecisions(room.id, week);
    }

    lemma Overwritten(m: map<string, Session>, id: string, shown: Session, kept: Session)
      ensures m[id := shown][id := kept] == m[id := kept]
    {}

    lemma UnplayedWorld(w: W.World, s: Session)
      requires s.id in w.sessions && w.sessions[s.id] == s
      ensures w.(sessions := w.sessions[s.id := s]) == w
    {
      assert w.sessions[s.id := s] == w.sessions;
    }

    /** Everything AdvanceWeek reads before it changes anything. */
    method LoadWeek(roomId: string)
      returns (problem: Option<Error>, room: LiveRoom?, session: GameSession?, week: int, orders: Decisions)
      requires Valid()
      ensures Valid() && World() == old(World())
      ensures problem.Some? ==> W.AdvanceTarget(World(), roomId) == Err(problem.value)
      ensures problem.None? ==>
                && room != null && fresh(room) && session != null && fresh(session)
                && room.Valid() && room.id == roomId && roomId in rooms.rooms
                && room.players == rooms.rooms[roomId].players
                && roomId in World().rooms && room.Value() == World().rooms[roomId]
                && Loaded(session) && session.id in World().sessions
                && World().sessions[session.id] == session.Value() && week == W.PlayableWeek(session.Value())
                && W.AdvanceTarget(World(), roomId) == Ok((session.Value(), orders))
    {
      hide RoomsOf, SessionsOf, Key, RoomStore.Valid, SessionStore.Valid, Separate, Owned, Server.World, W.PlayableWeek;
      session, week, orders := null, 0, map[];
      room := LoadRoom(roomId);
      if room == null {
        problem := Some(RoomNotFound);
        return;
      }
      session := LoadSession(roomId);
      if session == null {
        problem := Some(SessionNotFound);
        return;
      }
      week := W.PlayableWeek(session.Value());
      var stored := StoredDecisions(roomId, week);
      if stored.None? || |stored.value.orders| != 4 {
        problem := Some(WeekNotReady);
        return;
      }
      problem, orders := None, stored.value.orders;
    }

    /** Plays a week with four orders, and writes it. */
    method PlayStored(room: LiveRoom, session: GameSession, week: int, orders: Decisions, ghost w: W.World,
                      ghost s: Session)
      returns (reply: W.Reply)
      requires Valid() && room.Valid() && Loaded(session)
      requires w == World() && s == session.Value() && week == W.PlayableWeek(s)
      requires s.id in w.sessions && w.sessions[s.id] == s
      requires room.id in rooms.rooms && room.players == rooms.rooms[room.id].players
      requires room.id in w.rooms && room.Value() == w.rooms[room.id]
      modifies rooms, sessions, decisions, room`currentWeek, room`status
      modifies session, session.goodsPipelines, session.orderPipelines
      ensures Valid()
      ensures SeatsOf(rooms.rooms) <= old(SeatsOf(rooms.rooms)) + {room.players}
      ensures PipesOf(sessions.sessions) <=
              old(PipesOf(sessions.sessions)) + {old(session.goodsPipelines), old(session.orderPipelines)}
      ensures (World(), reply) == PlayStep(w, room.id, s, orders)
    {
      hide RoomsOf, SessionsOf, Key, RoomStore.Valid, SessionStore.Valid, Separate, Owned, Advanced, NextWeek,
        AdvanceProblem, Objection, Server.World;
      var played;
      ghost var shown;
      played, shown := PlayLoaded(session, orders, w, s);
      if played.Err? {
        UnplayedWorld(w, s);
        return W.Refused(played.error);
      }
      CommitLoaded(room, session, week, w, s, shown, orders);
      reply := W.WeekReply(played.value);
    }

    /** The pipelines move while the store still holds the old week; the saves that follow
        make store and session agree again. */
    method AdvanceWeek(roomId: string) returns (reply: W.Reply)
      requires Valid()
      modifies rooms, sessions, decisions, PipesOf(sessions.sessions)
      ensures Valid()
      ensures SeatsOf(rooms.rooms) <= old(SeatsOf(rooms.rooms))
      ensures PipesOf(sessions.sessions) <= old(PipesOf(sessions.sessions))
      ensures (World(), reply) == W.AdvanceStep(old(World()), roomId, W.NoFault, W.NoFault, W.NoFault)
    {
      hide RoomsOf, SessionsOf, RoomStore.Valid, SessionStore.Valid, Separate, Owned, AdvanceProblem, Server.World,
        W.AdvanceTarget, W.PlayableWeek, PlayStep;
      var problem, room, session, week, orders := LoadWeek(roomId);
      if problem.Some? {
        return W.Refused(problem.value);
      }
      AdvanceByPlaying(World(), roomId);
      reply := PlayStored(room, session, week, orders, World(), session.Value());
    }

    // ---------- Reading ----------

    method ReadPending(roomId: string) returns (r: Result<Snapshot>)
      requires Valid()
      ensures Valid() && World() == old(World()) && r == PendingDecisions(World(), roomId)
    {
      hide RoomsOf, SessionsOf, SnapshotOf, Key, RoomStore.Valid, SessionStore.Valid, Separate, Owned;
      var session := LoadSession(roomId);
      if session == null {
        return Err(SessionNotFound);
      }
      var week := W.PlayableWeek(session.Value());
      var stored := StoredDecisions(roomId, week);
      label loaded:
      var snapshot := TakeSnapshot(if stored.Some? then stored.value else WeeklyDecisions(roomId, week, map[]));
      SessionsUntouched@loaded();
      RoomsUntouched@loaded();
      r := Ok(snapshot);
    }

    static method FindSeat(room: LiveRoom, playerId: string) returns (player: Result<Player>)
      requires room.Valid()
      ensures player == FindPlayer(old(room.Value()), playerId)
    {
      for i := 0 to room.count
        invariant FindFrom(room.players[..room.count], playerId, 0) == FindFrom(room.players[..room.count], playerId, i)
      {
        if room.players[i].id == playerId {
          return Ok(room.players[i]);
        }
      }
      player := Err(PlayerNotFound);
    }

    static method Summarize(players: seq<Player>) returns (r: seq<PlayerSummary>)
      ensures r == Summaries(players)
    {
      r := [];
      for i := 0 to |players|
        invariant |r| == i && forall k :: 0 <= k < i ==> r[k] == Summaries(players)[k]
      {
        r := r + [PlayerSummary(players[i].name, players[i].role, players[i].connected)];
      }
    }

    static method CollectHistory(history: seq<WeekState>, role: Role) returns (r: seq<NodeState>)
      ensures r == OwnHistory(history, role)
    {
      r := [];
      for i := 0 to |history|
        invariant |r| == i && forall k :: 0 <= k < i ==> r[k] == OwnHistory(history, role)[k]
      {
        r := r + [NodeByRole(history[i].nodes, role)];
      }
    }

    static method ShowLobby(room: Room, player: Player) returns (state: PlayerState)
      ensures state == LobbyView(room, player)
    {
      var players := Summarize(room.players);
      state := PlayerState(room.id, player.id, player.name, player.role, room.status, room.currentWeek, room.maxWeeks,
                           room.scenarioId, players, 0, 0, false, false, 0, None, [], 0, None);
    }

    static method ShowGame(state: PlayerState, s: Session, pending: Snapshot, ghost room: Room, ghost player: Player)
      returns (r: PlayerState)
      requires state == LobbyView(room, player)
      ensures r == GameView(room, player, s, pending)
    {
      hide Report, Summaries;
      var report := CalculateSessionAnalytics(s.history);
      var ownHistory := CollectHistory(s.history, state.role);
      r := state.(
        currentWeek := W.PlayableWeek(s),
        scenarioId := s.scenario.id,
        ordersSubmitted := |pending.submitted|,
        ordersExpected := |ALL_ROLES|,
        weekReady := pending.ready,
        ownNode := Some(NodeByRole(s.nodes, state.role)),
        ownHistory := ownHistory,
        totalSystemCost := report.totalCost);
      if state.role in pending.orders {
        r := r.(ownOrderSubmitted := true, ownCurrentOrder := pending.orders[state.role]);
      }
      r := r.(ownAnalytics := AnalyticsFrom(report.nodeAnalytics, state.role, 0));
    }

    method GetPlayerState(roomId: string, playerId: string) returns (r: Result<PlayerState>)
      requires Valid()
      ensures Valid() && World() == old(World()) && r == PlayerView(World(), roomId, playerId)
    {
      hide RoomsOf, SessionsOf, Key, GameView, LobbyView, FindPlayer, PendingDecisions, RoomStore.Valid,
        SessionStore.Valid, Separate, Owned, Server.World;
      var room := LoadRoom(roomId);
      if room == null {
        return Err(RoomNotFound);
      }
      var record := room.Value();
      var player := SeatIn(room, playerId);
      if player.Err? {
        return Err(player.error);
      }
      r := ViewFor(roomId, record, player.value);
    }

    method SeatIn(room: LiveRoom, playerId: string) returns (player: Result<Player>)
      requires Valid() && room.Valid()
      ensures Valid() && World() == old(World())
      ensures player == FindPlayer(old(room.Value()), playerId)
    {
      player := FindSeat(room, playerId);
      SessionsUntouched();
      RoomsUntouched();
    }

    method LobbyOf(room: Room, player: Player) returns (state: PlayerState)
      requires Valid()
      ensures Valid() && World() == old(World()) && state == LobbyView(room, player)
    {
      state := ShowLobby(room, player);
      SessionsUntouched();
      RoomsUntouched();
    }

    method ViewFor(roomId: string, room: Room, player: Player) returns (r: Result<PlayerState>)
      requires Valid() && W.GetRoom(World(), roomId) == Ok(room)
      ensures Valid() && World() == old(World())
      ensures r == if room.status == Waiting then Ok(LobbyView(room, player))
                   else match W.GetSession(World(), roomId) {
                     case Err(e) => Err(e)
                     case Ok(s) => Ok(GameView(room, player, s, PendingDecisions(World(), roomId).value))
                   }
    {
      hide RoomsOf, SessionsOf, Key, GameView, LobbyView, RoomStore.Valid, SessionStore.Valid, Separate, Owned,
        Server.World;
      var state := LobbyOf(room, player);
      if room.status == Waiting {
        return Ok(state);
      }
      var session := LoadSession(roomId);
      if session == null {
        return Err(SessionNotFound);
      }
      var s := session.Value();
      var pending := ReadPending(roomId);
      r := GameOf(state, s, pending.value, room, player);
    }

    method GameOf(state: PlayerState, s: Session, pending: Snapshot, ghost room: Room, ghost player: Player)
      returns (r: Result<PlayerState>)
      requires Valid() && state == LobbyView(room, player)
      ensures Valid() && World() == old(World()) && r == Ok(GameView(room, player, s, pending))
    {
      hide GameView, LobbyView;
      var shown := ShowGame(state, s, pending, room, player);
      SessionsUntouched();
      RoomsUntouched();
      r := Ok(shown);
    }

    // ---------- Whole runs ----------

    /** One request, dispatched. */
    method Serve(request: Request) returns (answer: Answer)
      requires Valid() && (request.Change? ==> W.FaultFree(request.call)) && Unnoticed(World(), request)
      modifies rooms, sessions, decisions, SeatsOf(rooms.rooms), PipesOf(sessions.sessions)
      ensures Valid()
      ensures fresh(SeatsOf(rooms.rooms) - old(SeatsOf(rooms.rooms)))
      ensures fresh(PipesOf(sessions.sessions) - old(PipesOf(sessions.sessions)))
      ensures World() == WorldAfter(old(World()), request) && answer == AnswerTo(old(World()), request)
      ensures match request {
                case Change(call) => (World(), answer) == (W.Step(old(World()), call).0,
                                                           Changed(W.Step(old(World()), call).1))
                case ReadPending(roomId) => World() == old(World()) &&
                                            answer == PendingRead(PendingDecisions(old(World()), roomId))
                case ReadPlayer(roomId, playerId) => World() == old(World()) &&
                                                     answer == PlayerRead(PlayerView(old(World()), roomId, playerId))
              }
    {
      hide RoomsOf, SessionsOf, RoomStore.Valid, SessionStore.Valid, Separate, Owned, W.Step, PlayerView,
        PendingDecisions, Unnoticed, Server.World;
      match request
      case Change(call) =>
        var reply := Perform(call);
        answer := Changed(reply);
      case ReadPending(roomId) =>
        var pending := ReadPending(roomId);
        answer := PendingRead(pending);
      case ReadPlayer(roomId, playerId) =>
        var state := GetPlayerState(roomId, playerId);
        answer := PlayerRead(state);
    }

    method Perform(call: W.Call) returns (reply: W.Reply)
      requires Valid() && W.FaultFree(call) && Unnoticed(World(), Change(call))
      modifies rooms, sessions, decisions, SeatsOf(rooms.rooms), PipesOf(sessions.sessions)
      ensures Valid()
      ensures fresh(SeatsOf(rooms.rooms) - old(SeatsOf(rooms.rooms)))
      ensures fresh(PipesOf(sessions.sessions) - old(PipesOf(sessions.sessions)))
      ensures (World(), reply) == W.Step(old(World()), call)
    {
      hide RoomsOf, SessionsOf, RoomStore.Valid, SessionStore.Valid, Separate, Owned, W.CreateStep, W.JoinStep,
        W.AssignStep, W.StartStep, W.SubmitStep, W.AdvanceStep, W.StartScenario, AfterIdFailure, Server.World;
      match call
      case CreateRoom(maxWeeks, newId, _) => reply := CreateRoom(maxWeeks, newId);
      case JoinRoom(roomId, name, newId, _) => reply := JoinRoom(roomId, name, newId);
      case AssignRole(roomId, playerId, role, _) => reply := AssignRole(roomId, playerId, role);
      case StartGame(roomId, scenarioId, draws, newId, _, _) =>
        IdFailureShowsIff(World(), roomId, scenarioId, draws);
        reply := StartGame(roomId, scenarioId, draws, newId);
      case SubmitOrder(roomId, playerId, order, _) => reply := SubmitOrder(roomId, playerId, order);
      case AdvanceWeek(roomId, _, _, _) => reply := AdvanceWeek(roomId);
    }
  }

  /** Sharing is unobservable: served one after another from empty stores, the requests of any
      run, reads included, get the answers of stores that copy everything. Only a start that
      gets no id although it was accepted with a role still to give out is excepted. */
  method ServeAll(scenarios: W.Repository, requests: seq<Request>) returns (server: Server, answers: seq<Answer>)
    requires forall i :: 0 <= i < |requests| && requests[i].Change? ==> W.FaultFree(requests[i].call)
    requires forall i :: 0 <= i < |requests| ==> Unnoticed(Held(scenarios, requests, i), requests[i])
    ensures server.Valid() && server.World() == W.After(scenarios, ChangesOf(requests))
    ensures |answers| == |requests|
    ensures forall i :: 0 <= i < |requests| ==> answers[i] == AnswerTo(Held(scenarios, requests, i), requests[i])
  {
    hide RoomsOf, SessionsOf, Held, W.After, W.Step, W.FaultFree, AnswerTo, WorldAfter, Unnoticed, Separate, Owned,
      Server.World;
    server := new Server(scenarios);
    answers := [];
    NothingHeld(scenarios, requests);
    for i := 0 to |requests|
      invariant fresh(server.rooms) && fresh(server.sessions) && fresh(server.decisions)
      invariant server.Valid() && server.World() == Held(scenarios, requests, i)
      invariant fresh(SeatsOf(server.rooms.rooms)) && fresh(PipesOf(server.sessions.sessions))
      invariant |answers| == i
      invariant forall k :: 0 <= k < i ==> answers[k] == AnswerTo(Held(scenarios, requests, k), requests[k])
    {
      var answer := server.Serve(requests[i]);
      HeldGrows(scenarios, requests, i);
      answers := answers + [answer];
    }
    AllHeld(scenarios, requests);
  }

  lemma NothingHeld(scenarios: W.Repository, requests: seq<Request>)
    ensures Held(scenarios, requests, 0) == W.EmptyWorld(scenarios)
  {}

  lemma AllHeld(scenarios: W.Repository, requests: seq<Request>)
    ensures Held(scenarios, requests, |requests|) == W.After(scenarios, ChangesOf(requests))
  {
    assert requests[..|requests|] == requests;
  }
}
