/** The room as the program keeps it: players sit in an array of four that copies of the
    room share, and are updated in place. Models internal/domain/room.go. */
module LiveRooms {
  import opened Common
  import opened Rooms

  class LiveRoom {
    var id: string
    var status: GameStatus
    var currentWeek: int
    var maxWeeks: int
    var players: array<Player>
    var count: nat
    var scenarioId: string

    ghost predicate Valid()
      reads this
    {
      count <= SEATS == players.Length
    }

    function Value(): Room
      requires Valid()
      reads this, players
    {
      Room(id, status, currentWeek, maxWeeks, players[..count], scenarioId)
    }

    constructor FromFields(id: string, status: GameStatus, currentWeek: int, maxWeeks: int,
                           players: array<Player>, count: nat, scenarioId: string)
      requires count <= SEATS == players.Length
      ensures Valid() && this.players == players && this.count == count
      ensures Value() == Room(id, status, currentWeek, maxWeeks, players[..count], scenarioId)
    {
      this.id, this.status, this.currentWeek, this.maxWeeks := id, status, currentWeek, maxWeeks;
      this.players, this.count, this.scenarioId := players, count, scenarioId;
    }

    static method NewRoom(id: string, maxWeeks: int) returns (problem: Option<Error>, room: LiveRoom?)
      ensures problem == if maxWeeks <= 0 then Some(InvalidMaxWeeks) else None
      ensures problem.Some? ==> room == null
      ensures problem.None? ==> room != null && fresh(room) && fresh(room.players) && room.Valid()
      ensures problem.None? ==> room.Value() == EmptyRoom(id, maxWeeks)
    {
      if maxWeeks <= 0 {
        return Some(InvalidMaxWeeks), null;
      }
      var seats := new Player[SEATS](_ => Player("", "", Unset, false));
      problem := None;
      room := new LiveRoom.FromFields(id, Waiting, 0, maxWeeks, seats, 0, "");
    }

    /** A refused call leaves room and seats alone; an accepted one fills the next seat. */
    method AddPlayer(player: Player) returns (problem: Option<Error>)
      requires Valid()
      modifies this`count, players
      ensures Valid() && problem == AddProblem(old(Value()), player.name)
      ensures problem.Some? ==> Value() == old(Value()) && players[..] == old(players[..])
      ensures problem.None? ==> Value() == Added(old(Value()), player)
      ensures players[..old(count)] == old(players[..count])
    {
      if player.name == "" {
        return Some(EmptyPlayerName);
      }
      if status != Waiting {
        return Some(CannotJoinStarted);
      }
      if count >= SEATS {
        return Some(RoomFull);
      }
      for i := 0 to count
        invariant forall j :: 0 <= j < i ==> players[j].name != player.name
      {
        if players[i].name == player.name {
          assert players[..count][i].name == player.name;
          return Some(PlayerAlreadyIn);
        }
      }
      players[count] := player.(connected := true);
      count := count + 1;
      problem := None;
    }

    method AssignRole(playerId: string, role: Role) returns (problem: Option<Error>)
      requires Valid()
      modifies players
      ensures problem == AssignProblem(old(Value()), playerId, role)
      ensures problem.Some? ==> players[..] == old(players[..])
      ensures problem.None? ==> Value() == Assigned(old(Value()), playerId, role)
    {
      if status != Waiting {
        return Some(GameAlreadyStarted);
      }
      if !IsKnownRole(role) {
        return Some(InvalidRole);
      }
      ghost var ps := players[..count];
      var playerIndex := -1;
      for i := 0 to count
        invariant playerIndex == PlayerIndex(ps, playerId, i)
        invariant forall j :: 0 <= j < i ==> players[j].id == playerId || players[j].role != role
      {
        if players[i].id == playerId {
          playerIndex := i;
        } else if players[i].role == role {
          assert ps[i].id != playerId && ps[i].role == role;
          return Some(RoleAlreadyTaken);
        }
      }
      assert !TakenByOther(ps, playerId, role);
      if playerIndex == -1 {
        return Some(PlayerNotFound);
      }
      players[playerIndex] := players[playerIndex].(role := role);
      assert players[..count] == WithRole(ps, playerIndex, role);
      problem := None;
    }

    /** The roles chosen so far, or the first objection to them. */
    method CheckRoles() returns (problem: Option<Error>, used: set<Role>)
      requires Valid()
      ensures problem == RolesProblem(players[..count], count)
      ensures problem.None? ==> used == UsedRoles(players[..count], count)
    {
      ghost var ps := players[..count];
      used := {};
      for i := 0 to count
        invariant used == UsedRoles(ps, i) && RolesProblem(ps, i).None?
      {
        var role := players[i].role;
        if !role.Unset? {
          if !IsKnownRole(role) {
            ProblemStays(ps, i + 1, count);
            return Some(InvalidRole), used;
          }
          if role in used {
            ProblemStays(ps, i + 1, count);
            return Some(RoleAlreadyTaken), used;
          }
        }
        UsedSnoc(ps, i);
        used := if role.Unset? then used else used + {role};
      }
      problem := None;
    }

    static lemma UsedSnoc(players: seq<Player>, i: nat)
      requires i < |players|
      ensures UsedRoles(players, i + 1) ==
              UsedRoles(players, i) + (if players[i].role.Unset? then {} else {players[i].role})
    {}

    static lemma {:induction false} ProblemStays(players: seq<Player>, i: nat, n: nat)
      requires i <= n <= |players| && RolesProblem(players, i).Some?
      ensures RolesProblem(players, n) == RolesProblem(players, i)
    {
      if i < n {
        ProblemStays(players, i, n - 1);
      }
    }

    /** Players without a role take the unused roles in order; the index into the unused
        roles needs no check. A refused call leaves the seats alone. */
    method EnsureRolesAssigned() returns (problem: Option<Error>)
      requires Valid()
      modifies players
      ensures problem == EnsureProblem(old(Value()).players)
      ensures problem.Some? ==> players[..] == old(players[..])
      ensures problem.None? ==> players[..count] == Completed(old(Value()).players)
    {
      if count != SEATS {
        return Some(RoomNotReady);
      }
      var used;
      problem, used := CheckRoles();
      if problem.Some? {
        return problem;
      }
      ghost var ps := players[..count];
      var available: seq<Role> := [];
      for i := 0 to 4
        invariant available == FreeRoles(used, i)
      {
        if ALL_ROLES[i] !in used {
          available := available + [ALL_ROLES[i]];
        }
      }
      EnoughFreeRoles(ps);
      var nextRole := 0;
      for i := 0 to count
        invariant nextRole == CountUnset(ps, i)
        invariant forall k :: 0 <= k < i ==> players[k] == Completed(ps)[k]
        invariant forall k :: i <= k < count ==> players[k] == ps[k]
      {
        if players[i].role.Unset? {
          CountGrows(ps, i + 1, count);
          players[i] := players[i].(role := available[nextRole]);
          nextRole := nextRole + 1;
        }
      }
      assert players[..count] == Completed(ps);
    }

    method Start() returns (problem: Option<Error>)
      requires Valid()
      modifies this`status, this`currentWeek, players
      ensures problem == StartProblem(old(Value()))
      ensures problem.Some? ==> Value() == old(Value()) && players[..] == old(players[..])
      ensures problem.None? ==> Value() == Started(old(Value()))
    {
      if status != Waiting {
        return Some(GameAlreadyStarted);
      }
      if count != SEATS {
        return Some(RoomNotReady);
      }
      problem := EnsureRolesAssigned();
      if problem.Some? {
        assert players[..count] == old(players[..])[..count];
        return;
      }
      status := Active;
      currentWeek := 1;
    }

    method FindRole(playerId: string) returns (r: Result<Role>)
      requires Valid()
      ensures r == RoleOfPlayer(Value(), playerId)
    {
      for i := 0 to count
        invariant RoleFrom(players[..count], playerId, 0) == RoleFrom(players[..count], playerId, i)
      {
        if players[i].id == playerId {
          if players[i].role.Unset? {
            return Err(PlayerRoleMissing);
          }
          return Ok(players[i].role);
        }
      }
      r := Err(PlayerNotFound);
    }
  }
}
