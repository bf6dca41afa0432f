/** Types shared by every part of the model: results, the error values of the
    domain package, roles and lifecycle states. */
module Common {
  datatype Option<+T> = None | Some(value: T)

  datatype Result<+T> = Ok(value: T) | Err(error: Error)

  datatype Error =
    | InvalidMaxWeeks
    | EmptyPlayerName
    | RoomFull
    | RoomNotFound
    | PlayerAlreadyIn
    | CannotJoinStarted
    | PlayerNotFound
    | InvalidRole
    | RoleAlreadyTaken
    | RoomNotReady
    | GameAlreadyStarted
    | PlayerRoleMissing
    | ScenarioDemandEmpty
    | InvalidDelay
    | NegativeValue
    | DemandRangeInverted
    | DemandPeriodNotPositive
    | UnsupportedDemandMode
    | GoodsPipelineLength
    | OrderPipelineLength
    | ProductionPipelineLength
    | SessionNotActive
    | SessionNotFound
    | WeekLimitReached
    | MissingDecision(missing: Role)
    | NegativeDecision(negative: Role)
    | WeekNotReady
    | WeekDecisionsNotFound
    | StoreFailure
    | IdFailure

  /** A role is a string in the program: the empty string, one of the four known
      names, or any other text. */
  datatype Role = Unset | Factory | Distributor | Wholesaler | Retailer | Unknown(name: string)

  const ALL_ROLES: seq<Role> := [Factory, Distributor, Wholesaler, Retailer]

  predicate IsKnownRole(role: Role) {
    role.Factory? || role.Distributor? || role.Wholesaler? || role.Retailer?
  }

  /** The place of a role in the order of the game. */
  function Place(role: Role): nat
    requires IsKnownRole(role)
  {
    match role
    case Factory => 0
    case Distributor => 1
    case Wholesaler => 2
    case Retailer => 3
  }

  function RoleName(role: Role): string {
    match role
    case Unset => ""
    case Factory => "factory"
    case Distributor => "distributor"
    case Wholesaler => "wholesaler"
    case Retailer => "retailer"
    case Unknown(name) => name
  }

  datatype GameStatus = Waiting | Active | Finished

  function MinInt(a: int, b: int): int {
    if a < b then a else b
  }

  function MaxInt(a: int, b: int): int {
    if a > b then a else b
  }
}
