/** What every run of the chain keeps: each queue is a delay line, stock and debt are
    the difference of what came in and what went out, shipments have a closed form,
    and goods and orders are conserved. */
module ChainLaws {
  import opened Common
  import opened Sums
  import opened Scenarios
  import opened Chain

  // ---------- Reading a history column by column ----------

  datatype Metric = Shipped | Received | Requested | Placed | Stock | Owed | Cost

  function Get(n: NodeState, m: Metric): int {
    match m
    case Shipped => n.actualShipment
    case Received => n.incomingGoods
    case Requested => n.incomingOrder
    case Placed => n.placedOrder
    case Stock => n.inventory
    case Owed => n.backlog
    case Cost => n.weeklyCost
  }

  /** One figure of one role, week by week. */
  function Column(history: seq<WeekState>, role: Role, m: Metric): seq<int> {
    seq(|history|, i requires 0 <= i < |history| => Get(NodeByRole(history[i].nodes, role), m))
  }

  lemma ColumnSnoc(history: seq<WeekState>, week: WeekState, role: Role, m: Metric)
    ensures Column(history + [week], role, m) == Column(history, role, m) + [Get(NodeByRole(week.nodes, role), m)]
    ensures Sum(Column(history + [week], role, m)) ==
            Sum(Column(history, role, m)) + Get(NodeByRole(week.nodes, role), m)
  {
    SumSnoc(Column(history, role, m), Get(NodeByRole(week.nodes, role), m));
  }

  // ---------- The invariant ----------

  ghost predicate InRoleOrder(nodes: seq<NodeState>) {
    && |nodes| == 4
    && nodes[0].role == Factory && nodes[1].role == Distributor
    && nodes[2].role == Wholesaler && nodes[3].role == Retailer
  }

  lemma LookUp(nodes: seq<NodeState>)
    requires InRoleOrder(nodes)
    ensures NodeByRole(nodes, Factory) == nodes[0] && NodeByRole(nodes, Distributor) == nodes[1]
    ensures NodeByRole(nodes, Wholesaler) == nodes[2] && NodeByRole(nodes, Retailer) == nodes[3]
  {
    assert NodeFrom(nodes, Distributor, 1) == nodes[1];
    assert NodeFrom(nodes, Wholesaler, 2) == nodes[2] == NodeFrom(nodes, Wholesaler, 1);
    assert NodeFrom(nodes, Retailer, 3) == nodes[3] == NodeFrom(nodes, Retailer, 2) == NodeFrom(nodes, Retailer, 1);
  }

  /** What a week puts on the way to a role: new production for the factory, the
      supplier's shipment for everybody else. */
  function InflowOf(week: WeekState, role: Role): int {
    if role.Factory? then NodeByRole(week.nodes, Factory).placedOrder
    else NodeByRole(week.nodes, Supplier(role)).actualShipment
  }

  /** The same, for every week of a history. */
  function Inflow(history: seq<WeekState>, role: Role): seq<int> {
    if role.Factory? then Column(history, Factory, Placed) else Column(history, Supplier(role), Shipped)
  }

  /** Goods form a delay line: what arrived, followed by what is still on the way, is what
      was on the way at first, followed by everything sent since. */
  ghost predicate GoodsKept(initial: seq<int>, history: seq<WeekState>, queue: seq<int>, role: Role) {
    Column(history, role, Received) + queue == initial + Inflow(history, role)
  }

  /** So do orders, up to the retailer. */
  ghost predicate OrdersKept(initial: seq<int>, history: seq<WeekState>, queue: seq<int>, role: Role) {
    Column(history, role, Requested) + queue == initial + Column(history, Customer(role), Placed)
  }

  /** The retailer's orders are the demand table. */
  ghost predicate DemandKept(scenario: Scenario, history: seq<WeekState>) {
    forall i :: 0 <= i < |history| ==> Column(history, Retailer, Requested)[i] == DemandAt(scenario, i + 1)
  }

  /** Stock and debt are what came in less what went out; after a week at most one is positive. */
  ghost predicate NodeKept(scenario: Scenario, history: seq<WeekState>, node: NodeState, role: Role) {
    var shipped := Sum(Column(history, role, Shipped));
    && node.inventory == scenario.initialInventory + Sum(Column(history, role, Received)) - shipped
    && node.backlog == scenario.initialBacklog + Sum(Column(history, role, Requested)) - shipped
    && node.inventory >= 0 && node.backlog >= 0
    && (history != [] ==> node.inventory == 0 || node.backlog == 0)
  }

  ghost predicate NoNegatives(history: seq<WeekState>, role: Role) {
    && NonNegative(Column(history, role, Shipped))
    && NonNegative(Column(history, role, Placed))
  }

  ghost predicate RoleKept(s: Session, role: Role) {
    && GoodsKept(s.scenario.initialPipelineGoods, s.history, GoodsQueue(s, role), role)
    && (if role.Retailer? then DemandKept(s.scenario, s.history)
        else OrdersKept(s.scenario.initialPipelineOrders, s.history, Queue(s.orders, role), role))
    && NodeKept(s.scenario, s.history, NodeByRole(s.nodes, role), role)
    && NoNegatives(s.history, role)
    && NodeByRole(s.nodes, role).id == s.id + "-" + RoleName(role)
    && PastKept(s.id, s.scenario, s.history, role)
  }

  /** Stock and debt are paid for. */
  ghost predicate CostKept(scenario: Scenario, node: NodeState) {
    node.weeklyCost == node.inventory * scenario.holdingCost + node.backlog * scenario.backlogCost
  }

  /** The same balance held at the end of every past week. */
  ghost predicate PastKept(id: string, scenario: Scenario, history: seq<WeekState>, role: Role) {
    forall i :: 0 <= i < |history| ==>
      var node := NodeByRole(history[i].nodes, role);
      && NodeKept(scenario, history[..i + 1], node, role)
      && CostKept(scenario, node)
      && node.id == id + "-" + RoleName(role)
  }

  ghost predicate HistoryKept(s: Session) {
    && InRoleOrder(s.nodes)
    && |s.history| == s.currentWeek <= s.maxWeeks
    && s.status == (if s.currentWeek < s.maxWeeks then Active else Finished)
    && (s.history != [] ==> s.nodes == s.history[|s.history| - 1].nodes)
    && forall i :: 0 <= i < |s.history| ==>
         && s.history[i].week == i + 1
         && InRoleOrder(s.history[i].nodes)
         && s.history[i].totalCost == CostOf(s.history[i].nodes)
  }

  /** What holds of a session from its creation on. */
  ghost predicate Kept(s: Session) {
    && NewSessionProblem(s.scenario, s.maxWeeks).None?
    && DemandReadable(s.scenario)
    && HistoryKept(s)
    && s.goods.Keys == {Distributor, Wholesaler, Retailer}
    && s.orders.Keys == {Factory, Distributor, Wholesaler}
    && forall role :: IsKnownRole(role) ==> RoleKept(s, role)
  }

  /** A session as NewGameSession makes it, from a scenario whose demand can be read. */
  ghost predicate IsFresh(s: Session) {
    && NewSessionProblem(s.scenario, s.maxWeeks).None?
    && DemandReadable(s.scenario)
    && s == FreshSession(s.id, s.roomId, s.scenario, s.maxWeeks)
  }

  /** In a new session every role has its first stock and debt, and nothing has moved, been
      ordered or been paid. */
  lemma NewNode(id: string, roomId: string, scenario: Scenario, maxWeeks: int, role: Role)
    requires IsKnownRole(role)
    ensures var n := NodeByRole(FreshSession(id, roomId, scenario, maxWeeks).nodes, role);
            && n.inventory == scenario.initialInventory && n.backlog == scenario.initialBacklog
            && n.incomingOrder == 0 && n.incomingGoods == 0 && n.placedOrder == 0 && n.actualShipment == 0
            && n.weeklyCost == 0 && n.role == role
            && n.id == id + "-" + (match role
                                   case Factory => "factory"
                                   case Distributor => "distributor"
                                   case Wholesaler => "wholesaler"
                                   case _ => "retailer")
  {
    LookUp(FreshSession(id, roomId, scenario, maxWeeks).nodes);
  }

  lemma FreshRoleKept(s: Session, role: Role)
    requires IsFresh(s) && IsKnownRole(role)
    ensures RoleKept(s, role)
  {
    LookUp(s.nodes);
    assert Column(s.history, role, Received) == [];
    assert s.scenario.initialPipelineGoods + Inflow(s.history, role) == s.scenario.initialPipelineGoods;
    assert s.scenario.initialPipelineOrders + Column(s.history, Customer(role), Placed) ==
           s.scenario.initialPipelineOrders;
  }

  lemma FreshKept(s: Session)
    requires IsFresh(s)
    ensures Kept(s)
  {
    forall role | IsKnownRole(role) ensures RoleKept(s, role) {
      FreshRoleKept(s, role);
    }
  }

  /** A session that NewGameSession makes starts with the invariant exactly if its scenario is
      in fixed mode or comes with a non-empty table without negative entries. */
  lemma NewSessionKeptIff(id: string, roomId: string, scenario: Scenario, maxWeeks: int)
    requires NewSessionProblem(scenario, maxWeeks).None?
    ensures Kept(FreshSession(id, roomId, scenario, maxWeeks)) <==>
            NormalizedMode(scenario).Fixed? || (scenario.consumerDemand != [] && NonNegative(scenario.consumerDemand))
  {
    hide RoleKept;
    ValidDemandReadableIff(scenario);
    if DemandReadable(scenario) {
      FreshKept(FreshSession(id, roomId, scenario, maxWeeks));
    }
  }

  /** Without compilation a session may be made whose first customer order is negative. */
  lemma NegativeOrderExample() returns (s: Session)
    ensures NewSessionProblem(s.scenario, s.maxWeeks).None?
    ensures s == FreshSession(s.id, s.roomId, s.scenario, s.maxWeeks) && OrderDue(s, Retailer) < 0
  {
    var scenario := RandomScenarioMayBeNegative();
    s := FreshSession("session", "room", scenario, 3);
  }

  // ---------- One week keeps it ----------

  lemma FifoStep(out: seq<int>, queue: seq<int>, initial: seq<int>, sent: seq<int>, x: int)
    requires out + queue == initial + sent && |out| == |sent| && initial != []
    ensures (out + [Head(queue)]) + (Tail(queue) + [x]) == initial + (sent + [x])
  {
    assert queue == [queue[0]] + queue[1..];
    assert (out + [Head(queue)]) + (Tail(queue) + [x]) == (out + queue) + [x];
  }

  lemma GoodsStep(initial: seq<int>, history: seq<WeekState>, queue: seq<int>, week: WeekState, role: Role)
    requires GoodsKept(initial, history, queue, role) && initial != []
    requires NodeByRole(week.nodes, role).incomingGoods == Head(queue)
    ensures GoodsKept(initial, history + [week], Tail(queue) + [InflowOf(week, role)], role)
  {
    ColumnSnoc(history, week, role, Received);
    ColumnSnoc(history, week, Factory, Placed);
    ColumnSnoc(history, week, Supplier(role), Shipped);
    FifoStep(Column(history, role, Received), queue, initial, Inflow(history, role), InflowOf(week, role));
  }

  lemma OrdersStep(initial: seq<int>, history: seq<WeekState>, queue: seq<int>, week: WeekState, role: Role)
    requires OrdersKept(initial, history, queue, role) && initial != []
    requires NodeByRole(week.nodes, role).incomingOrder == Head(queue)
    ensures OrdersKept(initial, history + [week],
                       Tail(queue) + [NodeByRole(week.nodes, Customer(role)).placedOrder], role)
  {
    ColumnSnoc(history, week, role, Requested);
    ColumnSnoc(history, week, Customer(role), Placed);
    FifoStep(Column(history, role, Requested), queue, initial, Column(history, Customer(role), Placed),
             NodeByRole(week.nodes, Customer(role)).placedOrder);
  }

  /** A node settles a week by shipping the smaller of what it has and what it owes. */
  ghost predicate Settles(prev: NodeState, next: NodeState) {
    && next.actualShipment == MinInt(prev.inventory + next.incomingGoods, next.incomingOrder + prev.backlog)
    && next.inventory == prev.inventory + next.incomingGoods - next.actualShipment
    && next.backlog == MaxInt(next.incomingOrder + prev.backlog - next.actualShipment, 0)
  }

  lemma NodeStep(scenario: Scenario, history: seq<WeekState>, prev: NodeState, week: WeekState, role: Role)
    requires NodeKept(scenario, history, prev, role) && Settles(prev, NodeByRole(week.nodes, role))
    ensures NodeKept(scenario, history + [week], NodeByRole(week.nodes, role), role)
  {
    ColumnSnoc(history, week, role, Received);
    ColumnSnoc(history, week, role, Requested);
    ColumnSnoc(history, week, role, Shipped);
  }

  /** Whatever is next to arrive was sent at some time, so it is not negative. */
  lemma HeadNonNegative(out: seq<int>, queue: seq<int>, initial: seq<int>, sent: seq<int>)
    requires out + queue == initial + sent && |out| == |sent|
    requires NonNegative(initial) && NonNegative(sent)
    ensures Head(queue) >= 0
  {
    if queue != [] {
      assert queue[0] == (initial + sent)[|out|];
    }
  }

  lemma ArrivalsNonNegative(s: Session, role: Role)
    requires Kept(s) && IsKnownRole(role)
    ensures GoodsDue(s, role) >= 0 && OrderDue(s, role) >= 0
  {
    hide PastKept, NodeKept, HistoryKept, NodeByRole;
    assert RoleKept(s, role);
    assert role.Factory? || RoleKept(s, Supplier(role));
    HeadNonNegative(Column(s.history, role, Received), GoodsQueue(s, role), s.scenario.initialPipelineGoods,
                    Inflow(s.history, role));
    if !role.Retailer? {
      assert RoleKept(s, Customer(role));
      HeadNonNegative(Column(s.history, role, Requested), Queue(s.orders, role), s.scenario.initialPipelineOrders,
                      Column(s.history, Customer(role), Placed));
    }
  }

  lemma NoNegativesStep(history: seq<WeekState>, week: WeekState, role: Role)
    requires NoNegatives(history, role)
    requires NodeByRole(week.nodes, role).actualShipment >= 0 && NodeByRole(week.nodes, role).placedOrder >= 0
    ensures NoNegatives(history + [week], role)
  {
    ColumnSnoc(history, week, role, Shipped);
    ColumnSnoc(history, week, role, Placed);
  }

  lemma PastStep(id: string, scenario: Scenario, history: seq<WeekState>, week: WeekState, role: Role)
    requires PastKept(id, scenario, history, role)
    requires var node := NodeByRole(week.nodes, role);
             && NodeKept(scenario, history + [week], node, role)
             && CostKept(scenario, node)
             && node.id == id + "-" + RoleName(role)
    ensures PastKept(id, scenario, history + [week], role)
  {
    hide NodeKept, CostKept, NodeByRole, RoleName;
    var h := history + [week];
    forall i | 0 <= i < |h|
      ensures NodeKept(scenario, h[..i + 1], NodeByRole(h[i].nodes, role), role)
    {
      assert h[..i + 1] == if i < |history| then history[..i + 1] else h;
    }
  }

  /** What a role's node records in the next week. */
  lemma NextNodeFacts(s: Session, d: Decisions, role: Role)
    requires Complete(d) && IsKnownRole(role)
    ensures var prev, next := NodeByRole(s.nodes, role), NodeByRole(NextNodes(s, d), role);
            && next == NextNode(s, role, d[role])
            && Settles(prev, next)
  {
    LookUp(NextNodes(s, d));
  }

  /** The queues of the next session, one role at a time. */
  lemma QueuesMoved(s: Session, d: Decisions, role: Role)
    requires Complete(d) && IsKnownRole(role)
    ensures GoodsQueue(Advanced(s, d), role) == Tail(GoodsQueue(s, role)) + [InflowOf(NextWeek(s, d), role)]
    ensures !role.Retailer? ==>
              Queue(Advanced(s, d).orders, role) ==
              Tail(Queue(s.orders, role)) + [NodeByRole(NextNodes(s, d), Customer(role)).placedOrder]
  {
    hide NodeByRole;
    if role.Factory? {
      NextNodeFacts(s, d, Factory);
    }
    if !role.Retailer? {
      NextNodeFacts(s, d, Customer(role));
    }
  }

  lemma StepGoodsKept(s: Session, d: Decisions, role: Role)
    requires RoleKept(s, role) && s.scenario.initialPipelineGoods != []
    requires Complete(d) && IsKnownRole(role)
    ensures GoodsKept(s.scenario.initialPipelineGoods, s.history + [NextWeek(s, d)],
                      GoodsQueue(Advanced(s, d), role), role)
  {
    QueuesMoved(s, d, role);
    NextNodeFacts(s, d, role);
    GoodsStep(s.scenario.initialPipelineGoods, s.history, GoodsQueue(s, role), NextWeek(s, d), role);
  }

  lemma StepOrdersKept(s: Session, d: Decisions, role: Role)
    requires RoleKept(s, role) && s.scenario.initialPipelineOrders != []
    requires Complete(d) && IsKnownRole(role) && !role.Retailer?
    ensures OrdersKept(s.scenario.initialPipelineOrders, s.history + [NextWeek(s, d)],
                       Queue(Advanced(s, d).orders, role), role)
  {
    QueuesMoved(s, d, role);
    NextNodeFacts(s, d, role);
    OrdersStep(s.scenario.initialPipelineOrders, s.history, Queue(s.orders, role), NextWeek(s, d), role);
  }

  lemma StepDemandKept(s: Session, d: Decisions)
    requires DemandKept(s.scenario, s.history) && |s.history| == s.currentWeek && Complete(d)
    ensures DemandKept(s.scenario, s.history + [NextWeek(s, d)])
  {
    NextNodeFacts(s, d, Retailer);
    ColumnSnoc(s.history, NextWeek(s, d), Retailer, Requested);
  }

  lemma NextNodeCost(s: Session, d: Decisions, role: Role)
    requires Complete(d) && IsKnownRole(role) && d[role] >= 0 && GoodsDue(s, role) >= 0 && OrderDue(s, role) >= 0
    requires NodeByRole(s.nodes, role).inventory >= 0 && NodeByRole(s.nodes, role).backlog >= 0
    ensures var node := NodeByRole(NextNodes(s, d), role);
            && CostKept(s.scenario, node) && node.actualShipment >= 0 && node.placedOrder >= 0
            && node.id == NodeByRole(s.nodes, role).id
  {
    NextNodeFacts(s, d, role);
  }

  lemma KeptNotNegative(scenario: Scenario, history: seq<WeekState>, node: NodeState, role: Role)
    requires NodeKept(scenario, history, node, role)
    ensures node.inventory >= 0 && node.backlog >= 0
  {}

  lemma StepNodeKept(s: Session, d: Decisions, role: Role)
    requires RoleKept(s, role) && Complete(d) && IsKnownRole(role)
    requires GoodsDue(s, role) >= 0 && OrderDue(s, role) >= 0 && d[role] >= 0
    ensures var h, node := s.history + [NextWeek(s, d)], NodeByRole(NextNodes(s, d), role);
            && NodeKept(s.scenario, h, node, role)
            && NoNegatives(h, role)
            && node.id == s.id + "-" + RoleName(role)
            && PastKept(s.id, s.scenario, h, role)
  {
    hide NodeKept, PastKept, NoNegatives, CostKept, GoodsKept, OrdersKept, DemandKept, NodeByRole;
    NextNodeFacts(s, d, role);
    KeptNotNegative(s.scenario, s.history, NodeByRole(s.nodes, role), role);
    NextNodeCost(s, d, role);
    NodeStep(s.scenario, s.history, NodeByRole(s.nodes, role), NextWeek(s, d), role);
    NoNegativesStep(s.history, NextWeek(s, d), role);
    PastStep(s.id, s.scenario, s.history, NextWeek(s, d), role);
  }

  lemma StepRoleKept(s: Session, d: Decisions, role: Role)
    requires Kept(s) && Acceptable(d) && IsKnownRole(role)
    ensures RoleKept(Advanced(s, d), role)
  {
    hide GoodsKept, OrdersKept, DemandKept, PastKept, NodeKept, NoNegatives;
    ArrivalsNonNegative(s, role);
    StepGoodsKept(s, d, role);
    if role.Retailer? {
      StepDemandKept(s, d);
    } else {
      StepOrdersKept(s, d, role);
    }
    StepNodeKept(s, d, role);
  }

  lemma StepHistoryKept(s: Session, d: Decisions)
    requires HistoryKept(s) && s.currentWeek < s.maxWeeks && Complete(d)
    ensures HistoryKept(Advanced(s, d))
  {
    assert InRoleOrder(NextNodes(s, d));
  }

  lemma StepKept(s: Session, d: Decisions)
    requires Kept(s) && s.currentWeek < s.maxWeeks && Acceptable(d)
    ensures Kept(Advanced(s, d))
  {
    StepHistoryKept(s, d);
    forall role | IsKnownRole(role) ensures RoleKept(Advanced(s, d), role) {
      StepRoleKept(s, d, role);
    }
  }

  /** The invariant holds after every run, and a run of n weeks reaches week n. */
  lemma {:induction false} RunKept(start: Session, weeks: seq<Decisions>)
    requires IsFresh(start) && Playable(start, weeks)
    ensures Kept(Play(start, weeks))
    ensures Play(start, weeks).currentWeek == |weeks|
    ensures Play(start, weeks).scenario == start.scenario && Play(start, weeks).maxWeeks == start.maxWeeks
    ensures Play(start, weeks).id == start.id
  {
    if weeks == [] {
      FreshKept(start);
    } else {
      RunKept(start, weeks[..|weeks| - 1]);
      StepKept(Play(start, weeks[..|weeks| - 1]), weeks[|weeks| - 1]);
    }
  }

  /** There are such runs. */
  lemma ExampleRun() returns (start: Session, weeks: seq<Decisions>)
    ensures IsFresh(start) && Playable(start, weeks) && |weeks| == 2
    ensures Kept(Play(start, weeks)) && Play(start, weeks).currentWeek == 2
  {
    var s := Scenario("fixed", 12, 0, [4, 4], [4], [4, 8], 2, 1, 2, 1, 2, Fixed, 0, 0, 0);
    start := FreshSession("session", "room", s, 2);
    var week := map[Factory := 4, Distributor := 4, Wholesaler := 4, Retailer := 8];
    weeks := [week, week];
    RunKept(start, weeks);
  }
}
