/** The game session as the program keeps it: an object whose pipelines are shared
    maps, updated in place. Models internal/domain/game_session.go. */
module GameSessions {
  import opened Common
  import opened Scenarios
  import opened Chain

  /** A Go map of queues: a reference, so that copies of a session share it. */
  class Pipelines {
    // What the map was made for; this is how two maps are known to be different ones.
    ghost const owner: string
    ghost const carriesGoods: bool
    var queues: Queues

    constructor (queues: Queues, ghost owner: string, ghost carriesGoods: bool)
      ensures this.queues == queues && this.owner == owner && this.carriesGoods == carriesGoods
    {
      this.queues, this.owner, this.carriesGoods := queues, owner, carriesGoods;
    }

    method Shift(role: Role) returns (incoming: int)
      modifies this
      ensures incoming == Head(Queue(old(queues), role))
      ensures queues == ShiftIn(old(queues), role)
    {
      var queue := if role in queues then queues[role] else [];
      if |queue| == 0 {
        assert role in queues ==> queues == queues[role := Tail(queues[role])];
        return 0;
      }
      incoming := queue[0];
      queues := queues[role := queue[1..]];
    }

    method Append(role: Role, value: int)
      modifies this
      ensures queues == PushIn(old(queues), role, value)
    {
      queues := queues[role := (if role in queues then queues[role] else []) + [value]];
    }
  }

  /** The two pipeline maps of one session. */
  ghost predicate Tagged(goods: Pipelines, orders: Pipelines, id: string) {
    goods.owner == id && orders.owner == id && goods.carriesGoods && !orders.carriesGoods
  }

  class GameSession {
    var id: string
    var roomId: string
    var status: GameStatus
    var currentWeek: int
    var maxWeeks: int
    var scenario: Scenario
    var nodes: seq<NodeState>
    var goodsPipelines: Pipelines
    var orderPipelines: Pipelines
    var productionQueue: seq<int>
    var history: seq<WeekState>

    /** The session with its pipelines read out. */
    function Value(): Session
      reads this, goodsPipelines, orderPipelines
    {
      Session(id, roomId, status, currentWeek, maxWeeks, scenario, nodes, goodsPipelines.queues,
              orderPipelines.queues, productionQueue, history)
    }

    constructor FromFields(id: string, roomId: string, status: GameStatus, currentWeek: int, maxWeeks: int,
                           scenario: Scenario, nodes: seq<NodeState>, goods: Pipelines, orders: Pipelines,
                           production: seq<int>, history: seq<WeekState>)
      ensures this.goodsPipelines == goods && this.orderPipelines == orders
      ensures Value() == Session(id, roomId, status, currentWeek, maxWeeks, scenario, nodes, goods.queues,
                                 orders.queues, production, history)
    {
      this.id, this.roomId, this.status := id, roomId, status;
      this.currentWeek, this.maxWeeks, this.scenario := currentWeek, maxWeeks, scenario;
      this.nodes, this.history, this.productionQueue := nodes, history, production;
      this.goodsPipelines, this.orderPipelines := goods, orders;
    }

    static method NewGameSession(id: string, roomId: string, scenario: Scenario, maxWeeks: int)
      returns (problem: Option<Error>, session: GameSession?)
      ensures problem == NewSessionProblem(scenario, maxWeeks)
      ensures problem.Some? ==> session == null
      ensures problem.None? ==>
                && session != null && fresh(session)
                && fresh(session.goodsPipelines) && fresh(session.orderPipelines)
                && Tagged(session.goodsPipelines, session.orderPipelines, id)
                && session.Value() == FreshSession(id, roomId, scenario, maxWeeks)
    {
      if maxWeeks <= 0 {
        return Some(InvalidMaxWeeks), null;
      }
      var invalid := Validate(scenario);
      if invalid.Some? {
        return invalid, null;
      }
      var nodes: seq<NodeState> := [];
      for i := 0 to 4
        invariant |nodes| == i && forall k :: 0 <= k < i ==> nodes[k] == FreshNode(id, scenario, ALL_ROLES[k])
      {
        nodes := nodes + [FreshNode(id, scenario, ALL_ROLES[i])];
      }
      var goods := new Pipelines(map[], id, true);
      var orders := new Pipelines(map[], id, false);
      goods.queues := goods.queues[Distributor := scenario.initialPipelineGoods];
      goods.queues := goods.queues[Wholesaler := scenario.initialPipelineGoods];
      goods.queues := goods.queues[Retailer := scenario.initialPipelineGoods];
      orders.queues := orders.queues[Factory := scenario.initialPipelineOrders];
      orders.queues := orders.queues[Distributor := scenario.initialPipelineOrders];
      orders.queues := orders.queues[Wholesaler := scenario.initialPipelineOrders];
      problem := None;
      session := new GameSession.FromFields(id, roomId, Active, 0, maxWeeks, scenario, nodes, goods, orders,
                                            scenario.initialPipelineGoods, []);
    }

    method ShiftProduction() returns (incoming: int)
      modifies this`productionQueue
      ensures incoming == Head(old(productionQueue)) && productionQueue == Tail(old(productionQueue))
    {
      if |productionQueue| == 0 {
        return 0;
      }
      incoming := productionQueue[0];
      productionQueue := productionQueue[1..];
    }

    /** The loop of AdvanceWeek over the roles: the four nodes of the coming week from
        what arrived, and their cost. */
    method SettleNodes(decisions: Decisions, incomingGoods: map<Role, int>, incomingOrders: map<Role, int>,
                       ghost before: Session)
      returns (nextNodes: seq<NodeState>, totalCost: int)
      requires Complete(decisions)
      requires before.nodes == nodes && before.scenario == scenario
      requires incomingGoods == AllGoodsDue(before) && incomingOrders == AllOrdersDue(before)
      ensures nextNodes == NextNodes(before, decisions) && totalCost == CostOf(nextNodes)
    {
      totalCost := 0;
      nextNodes := [];
      for i := 0 to 4
        invariant nextNodes == NextNodes(before, decisions)[..i]
        invariant totalCost == CostOf(nextNodes)
      {
        var role := ALL_ROLES[i];
        var next := SettleNode(role, decisions[role], incomingGoods[role], incomingOrders[role], before);
        assert (nextNodes + [next])[..i] == nextNodes;
        nextNodes := nextNodes + [next];
        totalCost := totalCost + next.weeklyCost;
      }
    }

    method SettleNode(role: Role, placed: int, goods: int, order: int, ghost before: Session)
      returns (next: NodeState)
      requires before.nodes == nodes && before.scenario == scenario
      requires goods == GoodsDue(before, role) && order == OrderDue(before, role)
      ensures next == NextNode(before, role, placed)
    {
      var prev := NodeByRole(nodes, role);
      var available := prev.inventory + goods;
      var required := order + prev.backlog;
      var shipment := MinInt(available, required);
      var backlog := MaxInt(required - shipment, 0);
      var inventory := available - shipment;
      var cost := inventory * scenario.holdingCost + backlog * scenario.backlogCost;
      next := NodeState(prev.id, role, inventory, backlog, order, goods, placed, shipment, cost);
    }

    static ghost function AllGoodsDue(s: Session): map<Role, int> {
      map[Distributor := GoodsDue(s, Distributor), Wholesaler := GoodsDue(s, Wholesaler),
          Retailer := GoodsDue(s, Retailer), Factory := GoodsDue(s, Factory)]
    }

    static ghost function AllOrdersDue(s: Session): map<Role, int> {
      map[Retailer := OrderDue(s, Retailer), Wholesaler := OrderDue(s, Wholesaler),
          Distributor := OrderDue(s, Distributor), Factory := OrderDue(s, Factory)]
    }

    method ShiftGoods() returns (incoming: map<Role, int>)
      modifies this`productionQueue, goodsPipelines
      ensures incoming == AllGoodsDue(old(Value()))
      ensures productionQueue == Tail(old(productionQueue))
      ensures goodsPipelines.queues == ShiftedGoods(old(goodsPipelines.queues))
    {
      var distributor := goodsPipelines.Shift(Distributor);
      var wholesaler := goodsPipelines.Shift(Wholesaler);
      var retailer := goodsPipelines.Shift(Retailer);
      var factory := ShiftProduction();
      incoming := map[Distributor := distributor, Wholesaler := wholesaler, Retailer := retailer, Factory := factory];
    }

    method ShiftOrders() returns (incoming: map<Role, int>)
      requires scenario.consumerDemand != []
      modifies orderPipelines
      ensures incoming == AllOrdersDue(old(Value()))
      ensures orderPipelines.queues == ShiftedOrders(old(orderPipelines.queues))
    {
      var retailer := DemandForWeek(scenario, currentWeek + 1);
      var wholesaler := orderPipelines.Shift(Wholesaler);
      var distributor := orderPipelines.Shift(Distributor);
      var factory := orderPipelines.Shift(Factory);
      incoming := map[Retailer := retailer, Wholesaler := wholesaler, Distributor := distributor, Factory := factory];
    }

    method PushOrders(decisions: Decisions)
      requires Complete(decisions)
      modifies this`productionQueue, orderPipelines
      ensures orderPipelines.queues == PushedOrders(old(orderPipelines.queues), decisions)
      ensures productionQueue == old(productionQueue) + [decisions[Factory]]
    {
      orderPipelines.Append(Wholesaler, decisions[Retailer]);
      orderPipelines.Append(Distributor, decisions[Wholesaler]);
      orderPipelines.Append(Factory, decisions[Distributor]);
      productionQueue := productionQueue + [decisions[Factory]];
    }

    method PushGoods(nextNodes: seq<NodeState>)
      modifies goodsPipelines
      ensures goodsPipelines.queues == PushedGoods(old(goodsPipelines.queues), nextNodes)
    {
      goodsPipelines.Append(Distributor, NodeByRole(nextNodes, Factory).actualShipment);
      goodsPipelines.Append(Wholesaler, NodeByRole(nextNodes, Distributor).actualShipment);
      goodsPipelines.Append(Retailer, NodeByRole(nextNodes, Wholesaler).actualShipment);
    }

    method CheckDecisions(decisions: Decisions) returns (problem: Option<Error>)
      ensures problem == Objection(decisions, ALL_ROLES)
      ensures problem.None? <==> Acceptable(decisions)
    {
      ObjectionIff(decisions);
      for i := 0 to 4
        invariant Objection(decisions, ALL_ROLES) == Objection(decisions, ALL_ROLES[i..])
      {
        if ALL_ROLES[i] !in decisions {
          return Some(MissingDecision(ALL_ROLES[i]));
        }
        if decisions[ALL_ROLES[i]] < 0 {
          return Some(NegativeDecision(ALL_ROLES[i]));
        }
      }
      problem := None;
    }

    /** Shifts all seven queues and settles the week, leaving nodes and history alone. */
    method SettleWeek(decisions: Decisions) returns (weekState: WeekState)
      requires goodsPipelines != orderPipelines
      requires scenario.consumerDemand != [] && Complete(decisions)
      modifies this`productionQueue, goodsPipelines, orderPipelines
      ensures weekState == NextWeek(old(Value()), decisions)
      ensures Value() == old(Value()).(goods := ShiftedGoods(old(goodsPipelines.queues)),
                                       orders := ShiftedOrders(old(orderPipelines.queues)),
                                       production := Tail(old(productionQueue)))
    {
      ghost var before := Value();
      var incomingGoods := ShiftGoods();
      var incomingOrders := ShiftOrders();
      var nextNodes, totalCost := SettleNodes(decisions, incomingGoods, incomingOrders, before);
      weekState := WeekState(currentWeek + 1, nextNodes, totalCost);
    }

    method Record(weekState: WeekState)
      modifies this`nodes, this`currentWeek, this`history, this`status
      ensures Value() == old(Value()).(nodes := weekState.nodes, currentWeek := old(currentWeek) + 1,
                                       history := old(history) + [weekState],
                                       status := if old(currentWeek) + 1 >= maxWeeks then Finished else old(status))
    {
      nodes, currentWeek, history := weekState.nodes, currentWeek + 1, history + [weekState];
      if currentWeek >= maxWeeks {
        status := Finished;
      }
    }

    /** The accepted part of AdvanceWeek. */
    method PlayWeek(decisions: Decisions) returns (weekState: WeekState)
      requires goodsPipelines != orderPipelines
      requires scenario.consumerDemand != [] && Complete(decisions)
      modifies this, goodsPipelines, orderPipelines
      ensures id == old(id) && roomId == old(roomId) && scenario == old(scenario)
      ensures goodsPipelines == old(goodsPipelines) && orderPipelines == old(orderPipelines)
      ensures weekState == NextWeek(old(Value()), decisions)
      ensures Value() == Advanced(old(Value()), decisions)
    {
      hide NextNodes, CostOf, ShiftedGoods, ShiftedOrders, PushedGoods, PushedOrders;
      weekState := SettleWeek(decisions);
      PushOrders(decisions);
      PushGoods(weekState.nodes);
      Record(weekState);
    }

    /** A refused call changes nothing. An accepted one reads the week's demand, which would
        panic on an empty table. */
    method AdvanceWeek(decisions: Decisions) returns (r: Result<WeekState>)
      requires goodsPipelines != orderPipelines
      requires AdvanceProblem(Value(), decisions).None? ==> scenario.consumerDemand != []
      modifies this, goodsPipelines, orderPipelines
      ensures id == old(id) && roomId == old(roomId) && scenario == old(scenario)
      ensures goodsPipelines == old(goodsPipelines) && orderPipelines == old(orderPipelines)
      ensures AdvanceProblem(old(Value()), decisions).Some? ==>
                r == Err(AdvanceProblem(old(Value()), decisions).value) && Value() == old(Value())
      ensures AdvanceProblem(old(Value()), decisions).None? ==>
                r == Ok(NextWeek(old(Value()), decisions)) && Value() == Advanced(old(Value()), decisions)
    {
      if status != Active {
        return Err(SessionNotActive);
      }
      if currentWeek >= maxWeeks {
        return Err(WeekLimitReached);
      }
      var problem := CheckDecisions(decisions);
      if problem.Some? {
        return Err(problem.value);
      }
      var weekState := PlayWeek(decisions);
      r := Ok(weekState);
    }
  }
}
