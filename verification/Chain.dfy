/** One week of the four-stage chain, as a function on session values.
    Models the arithmetic of internal/domain/game_session.go and internal/domain/state.go. */
module Chain {
  import opened Common
  import opened Scenarios

  datatype NodeState = NodeState(
    id: string,
    role: Role,
    inventory: int,
    backlog: int,
    incomingOrder: int,
    incomingGoods: int,
    placedOrder: int,
    actualShipment: int,
    weeklyCost: int)

  datatype WeekState = WeekState(week: int, nodes: seq<NodeState>, totalCost: int)

  type Queues = map<Role, seq<int>>
  type Decisions = map<Role, int>

  datatype Session = Session(
    id: string,
    roomId: string,
    status: GameStatus,
    currentWeek: int,
    maxWeeks: int,
    scenario: Scenario,
    nodes: seq<NodeState>,
    goods: Queues,
    orders: Queues,
    production: seq<int>,
    history: seq<WeekState>)

  function NodeFrom(nodes: seq<NodeState>, role: Role, i: nat): (n: NodeState)
    ensures n.role == role
    decreases |nodes| - i
  {
    if i >= |nodes| then NodeState("", role, 0, 0, 0, 0, 0, 0, 0)
    else if nodes[i].role == role then nodes[i]
    else NodeFrom(nodes, role, i + 1)
  }

  /** The first node holding the role; the zero node of that role when there is none. */
  function NodeByRole(nodes: seq<NodeState>, role: Role): (n: NodeState)
    ensures n.role == role
  {
    NodeFrom(nodes, role, 0)
  }

  /** From i on, the first node of the role is at j. */
  ghost predicate FirstOfRole(nodes: seq<NodeState>, role: Role, i: nat, j: nat) {
    i <= j < |nodes| && nodes[j].role == role && forall k :: i <= k < j ==> nodes[k].role != role
  }

  lemma {:induction false} FirstNodeFrom(nodes: seq<NodeState>, role: Role, i: nat)
    requires i <= |nodes|
    ensures (forall k :: i <= k < |nodes| ==> nodes[k].role != role) ==>
              NodeFrom(nodes, role, i) == NodeState("", role, 0, 0, 0, 0, 0, 0, 0)
    ensures forall j: nat :: FirstOfRole(nodes, role, i, j) ==> NodeFrom(nodes, role, i) == nodes[j]
    decreases |nodes| - i
  {
    if i < |nodes| && nodes[i].role != role {
      FirstNodeFrom(nodes, role, i + 1);
    }
  }

  /** The lookup finds the first node of the role, and makes up a zero node when there is none. */
  lemma NodeByRoleIsFirst(nodes: seq<NodeState>, role: Role)
    ensures (forall k :: 0 <= k < |nodes| ==> nodes[k].role != role) ==>
              NodeByRole(nodes, role) == NodeState("", role, 0, 0, 0, 0, 0, 0, 0)
    ensures forall j: nat :: FirstOfRole(nodes, role, 0, j) ==> NodeByRole(nodes, role) == nodes[j]
  {
    FirstNodeFrom(nodes, role, 0);
  }

  /** A missing queue reads as an empty one. */
  function Queue(queues: Queues, role: Role): seq<int> {
    if role in queues then queues[role] else []
  }

  function Head(queue: seq<int>): int {
    if queue == [] then 0 else queue[0]
  }

  function Tail(queue: seq<int>): seq<int> {
    if queue == [] then [] else queue[1..]
  }

  /** Who ships to a role, and who orders from it. */
  function Supplier(role: Role): Role {
    match role
    case Distributor => Factory
    case Wholesaler => Distributor
    case Retailer => Wholesaler
    case _ => Unset
  }

  function Customer(role: Role): Role {
    match role
    case Factory => Distributor
    case Distributor => Wholesaler
    case Wholesaler => Retailer
    case _ => Unset
  }

  /** Demand of a week, read as DemandForWeek; zero where that would panic. */
  function DemandAt(s: Scenario, week: int): int {
    if s.consumerDemand == [] then 0 else DemandForWeek(s, week)
  }

  function GoodsQueue(s: Session, role: Role): seq<int> {
    if role.Factory? then s.production else Queue(s.goods, role)
  }

  function GoodsDue(s: Session, role: Role): int {
    Head(GoodsQueue(s, role))
  }

  function OrderDue(s: Session, role: Role): int {
    if role.Retailer? then DemandAt(s.scenario, s.currentWeek + 1) else Head(Queue(s.orders, role))
  }

  function NextNode(s: Session, role: Role, placed: int): NodeState {
    var prev := NodeByRole(s.nodes, role);
    var available := prev.inventory + GoodsDue(s, role);
    var required := OrderDue(s, role) + prev.backlog;
    var shipment := MinInt(available, required);
    var backlog := MaxInt(required - shipment, 0);
    var inventory := available - shipment;
    NodeState(prev.id, role, inventory, backlog, OrderDue(s, role), GoodsDue(s, role), placed, shipment,
              inventory * s.scenario.holdingCost + backlog * s.scenario.backlogCost)
  }

  predicate Complete(decisions: Decisions) {
    Factory in decisions && Distributor in decisions && Wholesaler in decisions && Retailer in decisions
  }

  function NextNodes(s: Session, decisions: Decisions): seq<NodeState>
    requires Complete(decisions)
  {
    [NextNode(s, Factory, decisions[Factory]), NextNode(s, Distributor, decisions[Distributor]),
     NextNode(s, Wholesaler, decisions[Wholesaler]), NextNode(s, Retailer, decisions[Retailer])]
  }

  function CostOf(nodes: seq<NodeState>): int {
    if nodes == [] then 0 else CostOf(nodes[..|nodes| - 1]) + nodes[|nodes| - 1].weeklyCost
  }

  function NextWeek(s: Session, decisions: Decisions): WeekState
    requires Complete(decisions)
  {
    WeekState(s.currentWeek + 1, NextNodes(s, decisions), CostOf(NextNodes(s, decisions)))
  }

  /** Removing the head of one queue; a missing queue stays missing. */
  function ShiftIn(queues: Queues, role: Role): Queues {
    if role in queues then queues[role := Tail(queues[role])] else queues
  }

  function PushIn(queues: Queues, role: Role, value: int): Queues {
    queues[role := Queue(queues, role) + [value]]
  }

  function ShiftedGoods(goods: Queues): Queues {
    ShiftIn(ShiftIn(ShiftIn(goods, Distributor), Wholesaler), Retailer)
  }

  function ShiftedOrders(orders: Queues): Queues {
    ShiftIn(ShiftIn(ShiftIn(orders, Wholesaler), Distributor), Factory)
  }

  function PushedGoods(goods: Queues, nodes: seq<NodeState>): Queues {
    PushIn(PushIn(PushIn(goods, Distributor, NodeByRole(nodes, Factory).actualShipment),
                  Wholesaler, NodeByRole(nodes, Distributor).actualShipment),
           Retailer, NodeByRole(nodes, Wholesaler).actualShipment)
  }

  function PushedOrders(orders: Queues, decisions: Decisions): Queues
    requires Complete(decisions)
  {
    PushIn(PushIn(PushIn(orders, Wholesaler, decisions[Retailer]), Distributor, decisions[Wholesaler]),
           Factory, decisions[Distributor])
  }

  /** The session one week later. */
  function Advanced(s: Session, decisions: Decisions): Session
    requires Complete(decisions)
  {
    var week := NextWeek(s, decisions);
    s.(status := if s.currentWeek + 1 >= s.maxWeeks then Finished else s.status,
       currentWeek := s.currentWeek + 1,
       nodes := week.nodes,
       goods := PushedGoods(ShiftedGoods(s.goods), week.nodes),
       orders := PushedOrders(ShiftedOrders(s.orders), decisions),
       production := Tail(s.production) + [decisions[Factory]],
       history := s.history + [week])
  }

  /** The first objection to a map of decisions, in the order of the roles given. */
  function Objection(decisions: Decisions, roles: seq<Role>): Option<Error> {
    if roles == [] then None
    else if roles[0] !in decisions then Some(MissingDecision(roles[0]))
    else if decisions[roles[0]] < 0 then Some(NegativeDecision(roles[0]))
    else Objection(decisions, roles[1..])
  }

  /** A map of decisions passes exactly when every role has a non-negative order. */
  lemma {:induction false} ObjectionIff(decisions: Decisions)
    ensures Objection(decisions, ALL_ROLES).None? <==> Acceptable(decisions)
  {
    assert ALL_ROLES[1..] == [Distributor, Wholesaler, Retailer];
    assert ALL_ROLES[1..][1..] == [Wholesaler, Retailer];
    assert ALL_ROLES[1..][1..][1..] == [Retailer];
    assert Objection(decisions, [Retailer]).None? <==> Retailer in decisions && decisions[Retailer] >= 0;
    assert Objection(decisions, [Wholesaler, Retailer]).None? <==>
           Wholesaler in decisions && decisions[Wholesaler] >= 0 && Objection(decisions, [Retailer]).None?;
  }

  function AdvanceProblem(s: Session, decisions: Decisions): (e: Option<Error>)
    ensures e.None? <==> s.status == Active && s.currentWeek < s.maxWeeks && Acceptable(decisions)
  {
    ObjectionIff(decisions);
    if s.status != Active then Some(SessionNotActive)
    else if s.currentWeek >= s.maxWeeks then Some(WeekLimitReached)
    else Objection(decisions, ALL_ROLES)
  }

  function FreshNode(id: string, scenario: Scenario, role: Role): NodeState {
    NodeState(id + "-" + RoleName(role), role, scenario.initialInventory, scenario.initialBacklog, 0, 0, 0, 0, 0)
  }

  function FreshSession(id: string, roomId: string, scenario: Scenario, maxWeeks: int): Session {
    var goods, orders := scenario.initialPipelineGoods, scenario.initialPipelineOrders;
    Session(id, roomId, Active, 0, maxWeeks, scenario,
            [FreshNode(id, scenario, Factory), FreshNode(id, scenario, Distributor),
             FreshNode(id, scenario, Wholesaler), FreshNode(id, scenario, Retailer)],
            map[Distributor := goods, Wholesaler := goods, Retailer := goods],
            map[Factory := orders, Distributor := orders, Wholesaler := orders],
            goods, [])
  }

  function NewSessionProblem(scenario: Scenario, maxWeeks: int): Option<Error> {
    if maxWeeks <= 0 then Some(InvalidMaxWeeks) else Validate(scenario)
  }

  // ---------- Refusals and beginnings ----------

  /** The objection is about the first role in order without an acceptable order. */
  lemma {:induction false} FirstObjection(decisions: Decisions, roles: seq<Role>) returns (k: nat)
    requires Objection(decisions, roles).Some?
    ensures k < |roles| && forall j :: 0 <= j < k ==> roles[j] in decisions && decisions[roles[j]] >= 0
    ensures roles[k] in decisions ==>
              decisions[roles[k]] < 0 && Objection(decisions, roles) == Some(NegativeDecision(roles[k]))
    ensures roles[k] !in decisions ==> Objection(decisions, roles) == Some(MissingDecision(roles[k]))
  {
    if roles[0] in decisions && decisions[roles[0]] >= 0 {
      var rest := FirstObjection(decisions, roles[1..]);
      k := rest + 1;
      forall j | 0 <= j < k ensures roles[j] in decisions && decisions[roles[j]] >= 0 {
        assert j > 0 ==> roles[j] == roles[1..][j - 1];
      }
    } else {
      k := 0;
    }
  }

  /** A session that is over refuses before one without weeks left, and both before any order
      is looked at. */
  lemma AdvanceRefusals(s: Session, decisions: Decisions)
    ensures s.status != Active ==> AdvanceProblem(s, decisions) == Some(SessionNotActive)
    ensures s.status == Active && s.currentWeek >= s.maxWeeks ==> AdvanceProblem(s, decisions) == Some(WeekLimitReached)
    ensures s.status == Active && s.currentWeek < s.maxWeeks ==>
              AdvanceProblem(s, decisions) == Objection(decisions, ALL_ROLES)
  {}

  lemma NewSessionRefusals(scenario: Scenario, maxWeeks: int)
    ensures maxWeeks <= 0 ==> NewSessionProblem(scenario, maxWeeks) == Some(InvalidMaxWeeks)
    ensures maxWeeks > 0 ==> NewSessionProblem(scenario, maxWeeks) == Validate(scenario)
  {}

  // ---------- Runs ----------

  /** Decisions that AdvanceWeek accepts in a running session. */
  predicate Acceptable(decisions: Decisions) {
    && Complete(decisions)
    && decisions[Factory] >= 0 && decisions[Distributor] >= 0
    && decisions[Wholesaler] >= 0 && decisions[Retailer] >= 0
  }

  predicate Playable(start: Session, weeks: seq<Decisions>) {
    |weeks| <= start.maxWeeks && forall i :: 0 <= i < |weeks| ==> Acceptable(weeks[i])
  }

  /** The session after a run of accepted weeks. */
  function Play(start: Session, weeks: seq<Decisions>): Session
    requires Playable(start, weeks)
  {
    if weeks == [] then start else Advanced(Play(start, weeks[..|weeks| - 1]), weeks[|weeks| - 1])
  }
}
