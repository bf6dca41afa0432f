/** What each room operation does and refuses, in terms of the seats: who may join, who gets
    which role, and which fault a refusal names. Models internal/domain/room.go. */
module RoomLaws {
  import opened Common
  import opened Rooms

  // ---------- Joining ----------

  ghost predicate NameTaken(players: seq<Player>, name: string) {
    exists i :: 0 <= i < |players| && players[i].name == name
  }

  /** Joining is refused for the first of four reasons, and accepted without any. */
  lemma JoinRefusals(room: Room, name: string)
    ensures AddProblem(room, name).None? <==>
            name != "" && room.status == Waiting && |room.players| < 4 && !NameTaken(room.players, name)
    ensures AddProblem(room, name) == Some(EmptyPlayerName) <==> name == ""
    ensures AddProblem(room, name) == Some(CannotJoinStarted) <==> name != "" && room.status != Waiting
    ensures AddProblem(room, name) == Some(RoomFull) <==>
            name != "" && room.status == Waiting && |room.players| >= 4
    ensures AddProblem(room, name) == Some(PlayerAlreadyIn) <==>
            name != "" && room.status == Waiting && |room.players| < 4 && NameTaken(room.players, name)
  {}

  /** A new player takes the next seat, connected; nobody else and nothing else changes. */
  lemma JoinedSeat(room: Room, player: Player)
    ensures var after := Added(room, player);
            && |after.players| == |room.players| + 1
            && (forall i :: 0 <= i < |room.players| ==> after.players[i] == room.players[i])
            && after.players[|room.players|] == Player(player.id, player.name, player.role, true)
            && after == room.(players := after.players)
  {}

  // ---------- Choosing a role ----------

  ghost predicate Sits(players: seq<Player>, id: string) {
    exists i :: 0 <= i < |players| && players[i].id == id
  }

  lemma IndexOfSeat(players: seq<Player>, id: string)
    ensures PlayerIndex(players, id, |players|) >= 0 <==> Sits(players, id)
  {
    if PlayerIndex(players, id, |players|) >= 0 {
      assert players[PlayerIndex(players, id, |players|)].id == id;
    }
  }

  lemma ChoiceRefusals(room: Room, id: string, role: Role)
    ensures AssignProblem(room, id, role).None? <==>
            room.status == Waiting && IsKnownRole(role) && Sits(room.players, id) &&
            forall i :: 0 <= i < |room.players| && room.players[i].role == role ==> room.players[i].id == id
    ensures AssignProblem(room, id, role) == Some(GameAlreadyStarted) <==> room.status != Waiting
    ensures AssignProblem(room, id, role) == Some(InvalidRole) <==> room.status == Waiting && !IsKnownRole(role)
    ensures AssignProblem(room, id, role) == Some(RoleAlreadyTaken) <==>
            room.status == Waiting && IsKnownRole(role) &&
            exists i :: 0 <= i < |room.players| && room.players[i].role == role && room.players[i].id != id
    ensures AssignProblem(room, id, role) == Some(PlayerNotFound) <==>
            room.status == Waiting && IsKnownRole(role) && !Sits(room.players, id) &&
            forall i :: 0 <= i < |room.players| ==> room.players[i].role != role
  {
    IndexOfSeat(room.players, id);
  }

  /** The player of that id has the role afterwards; every other seat, and everything else
      about this one, stays. */
  lemma ChosenSeat(room: Room, id: string, role: Role)
    requires AssignProblem(room, id, role).None? && IdsDistinct(room.players)
    ensures var after := Assigned(room, id, role);
            && |after.players| == |room.players|
            && (forall i :: 0 <= i < |room.players| ==>
                  after.players[i] == if room.players[i].id == id
                                      then Player(id, room.players[i].name, role, room.players[i].connected)
                                      else room.players[i])
            && after == room.(players := after.players)
  {}

  // ---------- Completing the roles ----------

  /** The first bad seat decides: an unknown role, or one that an earlier seat has. */
  lemma {:induction false} FirstBadSeat(players: seq<Player>, n: nat) returns (k: nat)
    requires n <= |players| && RolesProblem(players, n).Some?
    ensures k < n && RolesDistinct(players[..k]) && !players[k].role.Unset?
    ensures RolesProblem(players, n) == Some(if IsKnownRole(players[k].role) then RoleAlreadyTaken else InvalidRole)
    ensures IsKnownRole(players[k].role) ==> exists j :: 0 <= j < k && players[j].role == players[k].role
  {
    if RolesProblem(players, n - 1).Some? {
      k := FirstBadSeat(players, n - 1);
    } else {
      k := n - 1;
      RolesProblemIff(players, n - 1);
    }
  }

  lemma {:induction false} FreeInOrder(used: set<Role>, n: nat)
    requires n <= 4
    ensures forall k :: 0 <= k < |FreeRoles(used, n)| ==>
              IsKnownRole(FreeRoles(used, n)[k]) && Place(FreeRoles(used, n)[k]) < n
    ensures forall k, l :: 0 <= k < l < |FreeRoles(used, n)| ==>
              Place(FreeRoles(used, n)[k]) < Place(FreeRoles(used, n)[l])
  {
    if n > 0 {
      FreeInOrder(used, n - 1);
      assert Place(ALL_ROLES[n - 1]) == n - 1;
    }
  }

  /** Players without a role get the unused ones in the order factory, distributor,
      wholesaler, retailer, seat by seat. With CompletedIsBijection this leaves one outcome. */
  lemma FilledInOrder(players: seq<Player>, i: nat, j: nat)
    requires EnsureProblem(players).None? && i < j < |players|
    requires players[i].role.Unset? && players[j].role.Unset?
    ensures IsKnownRole(Completed(players)[i].role) && IsKnownRole(Completed(players)[j].role)
    ensures Place(Completed(players)[i].role) < Place(Completed(players)[j].role)
  {
    hide FreeRoles, UsedRoles, RolesDistinct;
    EnoughFreeRoles(players);
    FreeInOrder(UsedRoles(players, 4), 4);
    CountGrows(players, i + 1, j);
    CountGrows(players, j + 1, |players|);
  }

  /** Four players who chose nothing become factory, distributor, wholesaler and retailer in
      the order they joined. */
  lemma NoChoices(players: seq<Player>)
    requires |players| == 4 && forall i :: 0 <= i < 4 ==> players[i].role.Unset?
    ensures EnsureProblem(players).None?
    ensures forall i :: 0 <= i < 4 ==> Completed(players)[i].role == ALL_ROLES[i]
  {
    hide Completed;
    RolesProblemIff(players, 4);
    CompletedIsBijection(players);
    FilledInOrder(players, 0, 1);
    FilledInOrder(players, 1, 2);
    FilledInOrder(players, 2, 3);
    forall i | 0 <= i < 4 ensures IsKnownRole(Completed(players)[i].role) {}
  }

  /** Roles are completed for four players only, whose chosen roles are known and distinct. */
  lemma CompletionRefusals(players: seq<Player>)
    ensures |players| != 4 ==> EnsureProblem(players) == Some(RoomNotReady)
    ensures |players| == 4 ==> (EnsureProblem(players).None? <==> RolesDistinct(players))
    ensures |players| == 4 ==> EnsureProblem(players) == RolesProblem(players, 4)
  {
    if |players| == 4 {
      RolesProblemIff(players, 4);
      assert players[..4] == players;
    }
  }

  // ---------- Starting and looking up ----------

  /** In a reachable lobby only a started room and a missing player are refused. */
  lemma StartRefusals(room: Room)
    requires LobbyOk(room)
    ensures StartProblem(room) == Some(GameAlreadyStarted) <==> room.status != Waiting
    ensures StartProblem(room) == Some(RoomNotReady) <==> room.status == Waiting && |room.players| != 4
    ensures StartProblem(room).None? <==> room.status == Waiting && |room.players| == 4
  {
    StartSucceedsIff(room);
  }

  /** Starting gives out roles and opens week one; nothing else about the room changes. */
  lemma StartedFields(room: Room)
    requires StartProblem(room).None?
    ensures var after := Started(room);
            && after.status == Active && after.currentWeek == 1
            && after.id == room.id && after.maxWeeks == room.maxWeeks && after.scenarioId == room.scenarioId
            && |after.players| == 4
            && forall i :: 0 <= i < 4 ==> after.players[i] == room.players[i].(role := after.players[i].role)
  {
    CompletedIsBijection(room.players);
  }

  lemma {:induction false} RoleLookedUp(players: seq<Player>, id: string, i: nat)
    requires i <= |players|
    ensures RoleFrom(players, id, i) == Err(PlayerNotFound) <==> forall k :: i <= k < |players| ==> players[k].id != id
    ensures IdsDistinct(players) ==>
              forall k :: i <= k < |players| && players[k].id == id ==>
                RoleFrom(players, id, i) ==
                if players[k].role.Unset? then Err(PlayerRoleMissing) else Ok(players[k].role)
    decreases |players| - i
  {
    if i < |players| && players[i].id != id {
      RoleLookedUp(players, id, i + 1);
    }
  }
}
