/** Rooms as values: joining, choosing roles, completing the roles and starting.
    Models internal/domain/room.go. */
module Rooms {
  import opened Common

  datatype Player = Player(id: string, name: string, role: Role, connected: bool)

  datatype Room = Room(
    id: string,
    status: GameStatus,
    currentWeek: int,
    maxWeeks: int,
    players: seq<Player>,
    scenarioId: string)

  const SEATS: nat := 4

  function EmptyRoom(id: string, maxWeeks: int): Room {
    Room(id, Waiting, 0, maxWeeks, [], "")
  }

  // ---------- Joining ----------

  function AddProblem(room: Room, name: string): Option<Error> {
    if name == "" then Some(EmptyPlayerName)
    else if room.status != Waiting then Some(CannotJoinStarted)
    else if |room.players| >= SEATS then Some(RoomFull)
    else if exists i :: 0 <= i < |room.players| && room.players[i].name == name then Some(PlayerAlreadyIn)
    else None
  }

  function Added(room: Room, player: Player): Room {
    room.(players := room.players + [player.(connected := true)])
  }

  // ---------- Choosing a role ----------

  /** The last player with the id, or -1. */
  function PlayerIndex(players: seq<Player>, id: string, n: nat): (i: int)
    requires n <= |players|
    ensures -1 <= i < n
    ensures i >= 0 ==> players[i].id == id
    ensures forall j :: i < j < n ==> players[j].id != id
  {
    if n == 0 then -1
    else if players[n - 1].id == id then n - 1
    else PlayerIndex(players, id, n - 1)
  }

  predicate TakenByOther(players: seq<Player>, id: string, role: Role) {
    exists i :: 0 <= i < |players| && players[i].id != id && players[i].role == role
  }

  function AssignProblem(room: Room, playerId: string, role: Role): Option<Error> {
    if room.status != Waiting then Some(GameAlreadyStarted)
    else if !IsKnownRole(role) then Some(InvalidRole)
    else if TakenByOther(room.players, playerId, role) then Some(RoleAlreadyTaken)
    else if PlayerIndex(room.players, playerId, |room.players|) < 0 then Some(PlayerNotFound)
    else None
  }

  function WithRole(players: seq<Player>, i: nat, role: Role): seq<Player>
    requires i < |players|
  {
    players[i := players[i].(role := role)]
  }

  function Assigned(room: Room, playerId: string, role: Role): Room
    requires AssignProblem(room, playerId, role).None?
  {
    room.(players := WithRole(room.players, PlayerIndex(room.players, playerId, |room.players|), role))
  }

  // ---------- Completing the roles ----------

  /** The first objection among the first n players: an unknown role, or a repeated one. */
  function RolesProblem(players: seq<Player>, n: nat): Option<Error>
    requires n <= |players|
  {
    if n == 0 then None
    else if RolesProblem(players, n - 1).Some? then RolesProblem(players, n - 1)
    else
      var role := players[n - 1].role;
      if role.Unset? then None
      else if !IsKnownRole(role) then Some(InvalidRole)
      else if exists j :: 0 <= j < n - 1 && players[j].role == role then Some(RoleAlreadyTaken)
      else None
  }

  function EnsureProblem(players: seq<Player>): Option<Error> {
    if |players| != SEATS then Some(RoomNotReady) else RolesProblem(players, |players|)
  }

  function CountUnset(players: seq<Player>, n: nat): (c: nat)
    requires n <= |players|
    ensures c <= n
  {
    if n == 0 then 0 else CountUnset(players, n - 1) + (if players[n - 1].role.Unset? then 1 else 0)
  }

  /** The chosen roles among the first n players. */
  function UsedRoles(players: seq<Player>, n: nat): set<Role>
    requires n <= |players|
  {
    set i | 0 <= i < n && !players[i].role.Unset? :: players[i].role
  }

  /** The first n roles of the game without the used ones. */
  function FreeRoles(used: set<Role>, n: nat): seq<Role>
    requires n <= 4
  {
    if n == 0 then []
    else FreeRoles(used, n - 1) + (if ALL_ROLES[n - 1] in used then [] else [ALL_ROLES[n - 1]])
  }

  /** The k-th player without a role gets the k-th free role. */
  function Filled(players: seq<Player>, free: seq<Role>): seq<Player>
    requires CountUnset(players, |players|) <= |free|
  {
    seq(|players|, i requires 0 <= i < |players| =>
      if players[i].role.Unset? then players[i].(role := FreeAt(players, free, i)) else players[i])
  }

  function FreeAt(players: seq<Player>, free: seq<Role>, i: nat): Role
    requires i < |players| && players[i].role.Unset? && CountUnset(players, |players|) <= |free|
  {
    CountGrows(players, i + 1, |players|);
    free[CountUnset(players, i)]
  }

  lemma {:induction false} CountGrows(players: seq<Player>, i: nat, n: nat)
    requires i <= n <= |players|
    ensures CountUnset(players, i) <= CountUnset(players, n)
  {
    if i < n {
      CountGrows(players, i, n - 1);
    }
  }

  /** The chosen roles are known and no two players share one. */
  ghost predicate RolesDistinct(players: seq<Player>) {
    && (forall i :: 0 <= i < |players| && !players[i].role.Unset? ==> IsKnownRole(players[i].role))
    && (forall i, j :: 0 <= i < j < |players| && !players[i].role.Unset? ==> players[i].role != players[j].role)
  }

  lemma {:induction false} RolesProblemIff(players: seq<Player>, n: nat)
    requires n <= |players|
    ensures RolesProblem(players, n).None? <==> RolesDistinct(players[..n])
  {
    if n > 0 {
      RolesProblemIff(players, n - 1);
      assert players[..n] == players[..n - 1] + [players[n - 1]];
      if RolesDistinct(players[..n]) {
        forall i, j | 0 <= i < j < n - 1 && !players[i].role.Unset? ensures players[i].role != players[j].role {
          assert players[..n][i] == players[i] && players[..n][j] == players[j];
        }
      }
    }
  }

  lemma {:induction false} UsedCount(players: seq<Player>, n: nat)
    requires n <= |players| && RolesDistinct(players)
    ensures |UsedRoles(players, n)| + CountUnset(players, n) == n
    ensures forall role :: role in UsedRoles(players, n) ==> IsKnownRole(role)
  {
    if n > 0 {
      UsedCount(players, n - 1);
      var last := players[n - 1].role;
      if last.Unset? {
        assert UsedRoles(players, n) == UsedRoles(players, n - 1);
      } else {
        assert last !in UsedRoles(players, n - 1);
        assert UsedRoles(players, n) == UsedRoles(players, n - 1) + {last};
      }
    }
  }

  ghost function FirstRoles(n: nat): set<Role>
    requires n <= 4
  {
    if n == 0 then {} else FirstRoles(n - 1) + {ALL_ROLES[n - 1]}
  }

  lemma FirstRolesAll()
    ensures FirstRoles(4) == {Factory, Distributor, Wholesaler, Retailer} && |FirstRoles(4)| == 4
  {
    assert FirstRoles(1) == {Factory};
    assert FirstRoles(2) == {Factory, Distributor};
    assert FirstRoles(3) == {Factory, Distributor, Wholesaler};
    assert FirstRoles(4) == {Factory, Distributor, Wholesaler, Retailer};
  }

  lemma NextRoleNew(n: nat)
    requires 0 < n <= 4
    ensures ALL_ROLES[n - 1] !in FirstRoles(n - 1)
  {
    assert FirstRoles(1) == {Factory};
    assert FirstRoles(2) == {Factory, Distributor};
    assert FirstRoles(3) == {Factory, Distributor, Wholesaler};
  }

  lemma WithoutUsed(all: set<Role>, used: set<Role>, next: Role)
    requires next !in all
    ensures |all + {next} - used| == |all - used| + (if next in used then 0 else 1)
  {
    if next in used {
      assert all + {next} - used == all - used;
    } else {
      assert all + {next} - used == (all - used) + {next};
    }
  }

  lemma {:induction false} FreeCountTo(used: set<Role>, n: nat)
    requires n <= 4
    ensures |FreeRoles(used, n)| == |FirstRoles(n) - used|
  {
    if n > 0 {
      FreeCountTo(used, n - 1);
      NextRoleNew(n);
      WithoutUsed(FirstRoles(n - 1), used, ALL_ROLES[n - 1]);
    }
  }

  lemma FreeCount(used: set<Role>)
    requires forall role :: role in used ==> IsKnownRole(role)
    ensures |FreeRoles(used, 4)| + |used| == 4
  {
    hide FirstRoles, FreeRoles;
    FreeCountTo(used, 4);
    FirstRolesAll();
    assert FirstRoles(4) == used + (FirstRoles(4) - used);
  }

  lemma {:induction false} FreeDistinct(used: set<Role>, n: nat)
    requires n <= 4
    ensures forall i :: 0 <= i < |FreeRoles(used, n)| ==>
              FreeRoles(used, n)[i] !in used && FreeRoles(used, n)[i] in ALL_ROLES[..n]
    ensures forall i, j :: 0 <= i < j < |FreeRoles(used, n)| ==> FreeRoles(used, n)[i] != FreeRoles(used, n)[j]
  {
    if n > 0 {
      FreeDistinct(used, n - 1);
      assert ALL_ROLES[..n] == ALL_ROLES[..n - 1] + [ALL_ROLES[n - 1]];
      assert ALL_ROLES[n - 1] !in ALL_ROLES[..n - 1];
    }
  }

  /** There are as many free roles as players without one, so the program's unchecked index
      into the free roles stays in range. */
  lemma EnoughFreeRoles(players: seq<Player>)
    requires EnsureProblem(players).None?
    ensures RolesDistinct(players)
    ensures |FreeRoles(UsedRoles(players, 4), 4)| == CountUnset(players, |players|)
  {
    RolesProblemIff(players, 4);
    assert players[..4] == players;
    UsedCount(players, 4);
    FreeCount(UsedRoles(players, 4));
  }

  function Completed(players: seq<Player>): seq<Player>
    requires EnsureProblem(players).None?
  {
    EnoughFreeRoles(players);
    Filled(players, FreeRoles(UsedRoles(players, 4), 4))
  }

  ghost predicate Bijective(players: seq<Player>) {
    && |players| == SEATS
    && (forall i :: 0 <= i < |players| ==> IsKnownRole(players[i].role))
    && (forall i, j :: 0 <= i < j < |players| ==> players[i].role != players[j].role)
    && forall role :: IsKnownRole(role) ==> exists i :: 0 <= i < |players| && players[i].role == role
  }

  lemma {:induction false} FilledDistinct(players: seq<Player>, free: seq<Role>, i: nat, j: nat)
    requires RolesDistinct(players) && i < j < |players|
    requires CountUnset(players, |players|) <= |free|
    requires forall k :: 0 <= k < |free| ==> IsKnownRole(free[k]) && free[k] !in UsedRoles(players, |players|)
    requires forall k, l :: 0 <= k < l < |free| ==> free[k] != free[l]
    ensures Filled(players, free)[i].role != Filled(players, free)[j].role
  {
    hide UsedRoles;
    FilledAt(players, free, i);
    FilledAt(players, free, j);
    if players[i].role.Unset? && players[j].role.Unset? {
      CountGrows(players, i + 1, j);
      CountGrows(players, j + 1, |players|);
    }
  }

  /** A filled seat keeps its role, which is a used one, or gets a free one. */
  lemma FilledAt(players: seq<Player>, free: seq<Role>, i: nat)
    requires i < |players| && CountUnset(players, |players|) <= |free|
    ensures players[i].role.Unset? ==> Filled(players, free)[i].role in free
    ensures !players[i].role.Unset? ==> Filled(players, free)[i] == players[i]
    ensures !players[i].role.Unset? ==> players[i].role in UsedRoles(players, |players|)
  {
    if players[i].role.Unset? {
      CountGrows(players, i + 1, |players|);
    }
  }

  /** Completing the roles gives each of the four players one of the four roles, keeps every
      role already chosen and changes nothing else about a player. */
  lemma CompletedIsBijection(players: seq<Player>)
    requires EnsureProblem(players).None?
    ensures Bijective(Completed(players))
    ensures forall i :: 0 <= i < |players| ==>
              && Completed(players)[i] == players[i].(role := Completed(players)[i].role)
              && (!players[i].role.Unset? ==> Completed(players)[i] == players[i])
  {
    EnoughFreeRoles(players);
    var free, all := FreeRoles(UsedRoles(players, 4), 4), Completed(players);
    FreeDistinct(UsedRoles(players, 4), 4);
    assert forall k :: 0 <= k < |free| ==> IsKnownRole(free[k]) by { KnownFree(free); }
    forall i, j | 0 <= i < j < |all| ensures all[i].role != all[j].role {
      FilledDistinct(players, free, i, j);
    }
    forall i | 0 <= i < |all| ensures IsKnownRole(all[i].role) {
      CountGrows(players, i + 1, |players|);
    }
    FourDistinctRoles(all);
  }

  lemma KnownFree(free: seq<Role>)
    requires forall i :: 0 <= i < |free| ==> free[i] in ALL_ROLES[..4]
    ensures forall i :: 0 <= i < |free| ==> IsKnownRole(free[i])
  {}

  lemma FourDistinctRoles(players: seq<Player>)
    requires |players| == 4
    requires forall i :: 0 <= i < |players| ==> IsKnownRole(players[i].role)
    requires forall i, j :: 0 <= i < j < |players| ==> players[i].role != players[j].role
    ensures Bijective(players)
  {
    forall role | IsKnownRole(role) ensures exists i :: 0 <= i < |players| && players[i].role == role {
      assert players[0].role == role || players[1].role == role || players[2].role == role || players[3].role == role;
    }
  }

  // ---------- Starting ----------

  function StartProblem(room: Room): Option<Error> {
    if room.status != Waiting then Some(GameAlreadyStarted)
    else if |room.players| != SEATS then Some(RoomNotReady)
    else EnsureProblem(room.players)
  }

  function Started(room: Room): Room
    requires StartProblem(room).None?
  {
    room.(players := Completed(room.players), status := Active, currentWeek := 1)
  }

  function RoleOfPlayer(room: Room, playerId: string): Result<Role> {
    RoleFrom(room.players, playerId, 0)
  }

  function RoleFrom(players: seq<Player>, playerId: string, i: nat): Result<Role>
    decreases |players| - i
  {
    if i >= |players| then Err(PlayerNotFound)
    else if players[i].id != playerId then RoleFrom(players, playerId, i + 1)
    else if players[i].role.Unset? then Err(PlayerRoleMissing)
    else Ok(players[i].role)
  }

  // ---------- The lobby invariant ----------

  ghost predicate IdsDistinct(players: seq<Player>) {
    forall i, j :: 0 <= i < j < |players| ==> players[i].id != players[j].id
  }

  ghost predicate NamesDistinct(players: seq<Player>) {
    && (forall i :: 0 <= i < |players| ==> players[i].name != "")
    && (forall i, j :: 0 <= i < j < |players| ==> players[i].name != players[j].name)
  }

  ghost predicate LobbyOk(room: Room) {
    && |room.players| <= SEATS
    && RolesDistinct(room.players)
    && IdsDistinct(room.players)
    && NamesDistinct(room.players)
    && (room.status != Waiting ==> Bijective(room.players))
  }

  lemma AddKeepsLobby(room: Room, player: Player)
    requires LobbyOk(room) && AddProblem(room, player.name).None? && player.role.Unset?
    requires forall i :: 0 <= i < |room.players| ==> room.players[i].id != player.id
    ensures LobbyOk(Added(room, player))
  {}

  lemma AssignKeepsLobby(room: Room, playerId: string, role: Role)
    requires LobbyOk(room) && AssignProblem(room, playerId, role).None?
    ensures LobbyOk(Assigned(room, playerId, role))
    ensures RoleOfPlayer(Assigned(room, playerId, role), playerId) == Ok(role)
  {
    var k := PlayerIndex(room.players, playerId, |room.players|);
    RoleFound(Assigned(room, playerId, role).players, k, 0);
  }

  lemma StartKeepsLobby(room: Room)
    requires LobbyOk(room) && StartProblem(room).None?
    ensures LobbyOk(Started(room))
  {
    CompletedIsBijection(room.players);
  }

  /** In a room reached through the lobby, Start succeeds exactly when the room is waiting
      with four players; the started room refuses every lobby call, another Start included. */
  lemma StartSucceedsIff(room: Room)
    requires LobbyOk(room)
    ensures StartProblem(room).None? <==> room.status == Waiting && |room.players| == SEATS
    ensures StartProblem(room).None? ==>
              && StartProblem(Started(room)).Some?
              && forall id, role :: AssignProblem(Started(room), id, role).Some?
  {
    RolesProblemIff(room.players, |room.players|);
    assert room.players[..|room.players|] == room.players;
  }

  lemma {:induction false} RoleFound(players: seq<Player>, k: nat, i: nat)
    requires IdsDistinct(players) && i <= k < |players| && !players[k].role.Unset?
    ensures RoleFrom(players, players[k].id, i) == Ok(players[k].role)
    decreases |players| - i
  {
    if i < k {
      RoleFound(players, k, i + 1);
    }
  }

  /** Whom a role is looked up for really sits in the room and holds it. */
  lemma {:induction false} RoleHolder(players: seq<Player>, playerId: string, i: nat) returns (k: nat)
    requires RoleFrom(players, playerId, i).Ok?
    ensures i <= k < |players| && players[k].id == playerId
    ensures players[k].role == RoleFrom(players, playerId, i).value && !players[k].role.Unset?
    decreases |players| - i
  {
    if players[i].id == playerId {
      k := i;
    } else {
      k := RoleHolder(players, playerId, i + 1);
    }
  }
}
