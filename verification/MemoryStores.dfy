/** The in-memory stores. They keep shallow copies: a stored room shares its seats, and a
    stored session its pipelines, with every copy handed out. Models
    internal/infrastructure/memory/session_store.go, decision_store.go and room_store.go. */
module MemoryStores {
  import opened Common
  import opened Scenarios
  import opened Chain
  import opened GameSessions
  import opened Rooms
  import opened LiveRooms
  import opened WeekDecisions

  /** A Go struct is copied field by field; the array stays shared. */
  datatype RoomRecord = RoomRecord(
    id: string,
    status: GameStatus,
    currentWeek: int,
    maxWeeks: int,
    players: array<Player>,
    count: nat,
    scenarioId: string)

  function RoomRecordOf(room: LiveRoom): RoomRecord
    reads room
  {
    RoomRecord(room.id, room.status, room.currentWeek, room.maxWeeks, room.players, room.count, room.scenarioId)
  }

  /** A stored room with its seats read out. */
  function RoomOf(r: RoomRecord): Room
    requires r.count <= r.players.Length
    reads r.players
  {
    Room(r.id, r.status, r.currentWeek, r.maxWeeks, r.players[..r.count], r.scenarioId)
  }

  ghost function SeatsOf(m: map<string, RoomRecord>): set<array<Player>> {
    set id | id in m :: m[id].players
  }

  ghost predicate Seated(m: map<string, RoomRecord>) {
    forall id :: id in m ==> m[id].count <= SEATS == m[id].players.Length
  }

  ghost function RoomsOf(m: map<string, RoomRecord>): map<string, Room>
    requires Seated(m)
    reads SeatsOf(m)
  {
    map id | id in m :: RoomOf(m[id])
  }

  lemma RoomPut(m: map<string, RoomRecord>, id: string, r: RoomRecord)
    requires Seated(m) && r.count <= SEATS == r.players.Length
    ensures Seated(m[id := r]) && RoomsOf(m[id := r]) == RoomsOf(m)[id := RoomOf(r)]
  {
    hide RoomOf;
  }

  /** No two rooms share seats. */
  ghost predicate Separate(m: map<string, RoomRecord>) {
    forall a, b :: a in m && b in m && a != b ==> m[a].players != m[b].players
  }

  lemma SeatsPut(m: map<string, RoomRecord>, id: string, r: RoomRecord)
    ensures SeatsOf(m[id := r]) <= SeatsOf(m) + {r.players}
  {}

  lemma SeparatePut(m: map<string, RoomRecord>, id: string, r: RoomRecord)
    requires Separate(m) && forall other :: other in m && other != id ==> m[other].players != r.players
    ensures Separate(m[id := r])
  {}

  class RoomStore {
    var rooms: map<string, RoomRecord>

    /** Stored rooms are filed under their ids. */
    ghost predicate Valid()
      reads this
    {
      && Seated(rooms)
      && forall id :: id in rooms ==> rooms[id].id == id
    }

    /** The rooms as values, seats read out. */
    ghost function Value(): map<string, Room>
      requires Valid()
      reads this, SeatsOf(rooms)
    {
      RoomsOf(rooms)
    }

    constructor ()
      ensures rooms == map[] && Valid() && Value() == map[]
    {
      rooms := map[];
    }

    method Save(room: LiveRoom)
      requires Valid() && room.Valid()
      modifies this
      ensures Valid()
      ensures rooms == old(rooms)[room.id := RoomRecordOf(room)]
      ensures Value() == old(Value())[room.id := old(room.Value())]
      ensures SeatsOf(rooms) <= old(SeatsOf(rooms)) + {room.players}
    {
      var r := RoomRecordOf(room);
      RoomPut(rooms, room.id, r);
      SeatsPut(rooms, room.id, r);
      rooms := rooms[room.id := r];
    }

    /** A copy that shares its seats with the stored room. */
    method GetByID(id: string) returns (room: LiveRoom?)
      requires Valid()
      ensures room == null <==> id !in rooms
      ensures room != null ==>
                && fresh(room) && room.Valid() && room.id == id
                && room.players == rooms[id].players && room.Value() == RoomOf(rooms[id])
    {
      if id !in rooms {
        return null;
      }
      var r := rooms[id];
      room := new LiveRoom.FromFields(r.id, r.status, r.currentWeek, r.maxWeeks, r.players, r.count, r.scenarioId);
    }
  }

  datatype SessionRecord = SessionRecord(
    id: string,
    roomId: string,
    status: GameStatus,
    currentWeek: int,
    maxWeeks: int,
    scenario: Scenario,
    nodes: seq<NodeState>,
    goods: Pipelines,
    orders: Pipelines,
    production: seq<int>,
    history: seq<WeekState>)

  function SessionRecordOf(s: GameSession): SessionRecord
    reads s
  {
    SessionRecord(s.id, s.roomId, s.status, s.currentWeek, s.maxWeeks, s.scenario, s.nodes, s.goodsPipelines,
                  s.orderPipelines, s.productionQueue, s.history)
  }

  /** A stored session with its pipelines read out. */
  function SessionOf(r: SessionRecord): Session
    reads r.goods, r.orders
  {
    Session(r.id, r.roomId, r.status, r.currentWeek, r.maxWeeks, r.scenario, r.nodes, r.goods.queues,
            r.orders.queues, r.production, r.history)
  }

  ghost function PipesOf(m: map<string, SessionRecord>): set<Pipelines> {
    (set id | id in m :: m[id].goods) + (set id | id in m :: m[id].orders)
  }

  ghost function SessionsOf(m: map<string, SessionRecord>): map<string, Session>
    reads PipesOf(m)
  {
    map id | id in m :: SessionOf(m[id])
  }

  lemma PipesPut(m: map<string, SessionRecord>, id: string, r: SessionRecord)
    ensures PipesOf(m[id := r]) <= PipesOf(m) + {r.goods, r.orders}
  {}

  lemma RecordShows(s: GameSession)
    ensures SessionOf(SessionRecordOf(s)) == s.Value()
  {}

  lemma SessionPut(m: map<string, SessionRecord>, id: string, r: SessionRecord)
    ensures SessionsOf(m[id := r]) == SessionsOf(m)[id := SessionOf(r)]
  {
    hide SessionOf;
  }

  /** Sessions have readable demand and own their pipelines, which they therefore share with
      no other session. */
  ghost predicate Owned(m: map<string, SessionRecord>) {
    forall id :: id in m ==> m[id].scenario.consumerDemand != [] && Tagged(m[id].goods, m[id].orders, id)
  }

  lemma OwnedPut(m: map<string, SessionRecord>, id: string, r: SessionRecord)
    requires Owned(m) && r.scenario.consumerDemand != [] && Tagged(r.goods, r.orders, id)
    ensures Owned(m[id := r])
  {}

  class SessionStore {
    var sessions: map<string, SessionRecord>
    var byRoomId: map<string, string>

    /** Stored sessions are filed under their ids. */
    ghost predicate Valid()
      reads this
    {
      forall id :: id in sessions ==> sessions[id].id == id
    }

    /** The sessions as values, pipelines read out. */
    ghost function Value(): map<string, Session>
      reads this, PipesOf(sessions)
    {
      SessionsOf(sessions)
    }

    constructor ()
      ensures sessions == map[] && byRoomId == map[] && Valid() && Value() == map[]
    {
      sessions, byRoomId := map[], map[];
    }

    method Save(session: GameSession)
      requires Valid()
      modifies this
      ensures Valid()
      ensures sessions == old(sessions)[session.id := SessionRecordOf(session)]
      ensures Value() == old(Value())[session.id := old(session.Value())]
      ensures byRoomId == old(byRoomId)[session.roomId := session.id]
      ensures PipesOf(sessions) <= old(PipesOf(sessions)) + {session.goodsPipelines, session.orderPipelines}
    {
      hide SessionsOf, PipesOf, SessionOf;
      var r := SessionRecordOf(session);
      RecordShows(session);
      SessionPut(sessions, session.id, r);
      PipesPut(sessions, session.id, r);
      sessions := sessions[session.id := r];
      byRoomId := byRoomId[session.roomId := session.id];
    }

    /** A copy that shares its pipelines with the stored session. */
    method GetByID(id: string) returns (session: GameSession?)
      requires Valid()
      ensures session == null <==> id !in sessions
      ensures session != null ==>
                && fresh(session) && session.goodsPipelines == sessions[id].goods
                && session.orderPipelines == sessions[id].orders && session.Value() == SessionOf(sessions[id])
    {
      if id !in sessions {
        return null;
      }
      var r := sessions[id];
      session := new GameSession.FromFields(r.id, r.roomId, r.status, r.currentWeek, r.maxWeeks, r.scenario, r.nodes,
                                            r.goods, r.orders, r.production, r.history);
    }

    method GetByRoomID(roomId: string) returns (session: GameSession?)
      requires Valid()
      ensures session == null <==> roomId !in byRoomId || byRoomId[roomId] !in sessions
      ensures session != null ==>
                var id := byRoomId[roomId];
                && fresh(session) && session.goodsPipelines == sessions[id].goods
                && session.orderPipelines == sessions[id].orders && session.Value() == SessionOf(sessions[id])
    {
      if roomId !in byRoomId {
        return null;
      }
      session := GetByID(byRoomId[roomId]);
    }
  }

  /** Orders are copied in and out, so this store holds values. */
  class DecisionStore {
    var decisions: map<string, WeeklyDecisions>

    constructor ()
      ensures decisions == map[]
    {
      decisions := map[];
    }

    method Save(d: WeeklyDecisions)
      modifies this
      ensures decisions == old(decisions)[Key(d.roomId, d.week) := d]
    {
      decisions := decisions[Key(d.roomId, d.week) := d];
    }

    method GetByRoomAndWeek(roomId: string, week: int) returns (d: Option<WeeklyDecisions>)
      ensures d == if Key(roomId, week) in decisions then Some(decisions[Key(roomId, week)]) else None
    {
      var key := Key(roomId, week);
      d := if key in decisions then Some(decisions[key]) else None;
    }

    method DeleteByRoomAndWeek(roomId: string, week: int)
      modifies this
      ensures decisions == old(decisions) - {Key(roomId, week)}
    {
      decisions := decisions - {Key(roomId, week)};
    }
  }
}
