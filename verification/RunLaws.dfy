/** The main results about runs of the chain: the exact delay law, the closed form that
    the week-by-week program refines, its unrolled form, and conservation. */
module RunLaws {
  import opened Common
  import opened Sums
  import opened Scenarios
  import opened Chain
  import opened ChainLaws

  // ---------- Delays ----------

  lemma FifoAt(out: seq<int>, queue: seq<int>, initial: seq<int>, sent: seq<int>, i: nat)
    requires out + queue == initial + sent && |out| == |sent| && i < |out|
    ensures out[i] == if i < |initial| then initial[i] else sent[i - |initial|]
    ensures queue == (initial + sent)[|out|..]
  {
    assert out[i] == (out + queue)[i] == (initial + sent)[i];
    assert queue == (out + queue)[|out|..];
  }

  lemma GoodsArrive(initial: seq<int>, history: seq<WeekState>, queue: seq<int>, role: Role, t: nat)
    requires GoodsKept(initial, history, queue, role) && 1 <= t <= |history|
    ensures NodeByRole(history[t - 1].nodes, role).incomingGoods ==
            if t <= |initial| then initial[t - 1] else InflowOf(history[t - 1 - |initial|], role)
  {
    FifoAt(Column(history, role, Received), queue, initial, Inflow(history, role), t - 1);
  }

  lemma OrdersArrive(initial: seq<int>, history: seq<WeekState>, queue: seq<int>, role: Role, t: nat)
    requires OrdersKept(initial, history, queue, role) && 1 <= t <= |history|
    ensures NodeByRole(history[t - 1].nodes, role).incomingOrder ==
            if t <= |initial| then initial[t - 1]
            else NodeByRole(history[t - 1 - |initial|].nodes, Customer(role)).placedOrder
  {
    FifoAt(Column(history, role, Requested), queue, initial, Column(history, Customer(role), Placed), t - 1);
  }

  /** What a node receives in week t was sent exactly one delay earlier; before that it
      comes from the initial pipeline. Shipping and production take equally long. */
  lemma GoodsDelayLaw(s: Session, role: Role, t: nat)
    requires Kept(s) && IsKnownRole(role) && 1 <= t <= s.currentWeek
    ensures |s.scenario.initialPipelineGoods| == s.scenario.shippingDelay == s.scenario.productionDelay
    ensures var node, initial := NodeByRole(s.history[t - 1].nodes, role), s.scenario.initialPipelineGoods;
            node.incomingGoods == if t <= |initial| then initial[t - 1]
                                  else InflowOf(s.history[t - 1 - |initial|], role)
  {
    hide PastKept, NodeKept, NoNegatives, NodeByRole, OrdersKept, DemandKept, InflowOf;
    assert RoleKept(s, role);
    GoodsArrive(s.scenario.initialPipelineGoods, s.history, GoodsQueue(s, role), role, t);
  }

  /** Orders travel one order delay upstream; the retailer sees the week's demand. */
  lemma OrdersDelayLaw(s: Session, role: Role, t: nat)
    requires Kept(s) && IsKnownRole(role) && 1 <= t <= s.currentWeek
    ensures |s.scenario.initialPipelineOrders| == s.scenario.orderDelay
    ensures var node, initial := NodeByRole(s.history[t - 1].nodes, role), s.scenario.initialPipelineOrders;
            node.incomingOrder == if role.Retailer? then DemandAt(s.scenario, t)
                                  else if t <= |initial| then initial[t - 1]
                                  else NodeByRole(s.history[t - 1 - |initial|].nodes, Customer(role)).placedOrder
  {
    hide PastKept, NodeKept, NoNegatives, NodeByRole, GoodsKept;
    assert RoleKept(s, role);
    if role.Retailer? {
      assert Column(s.history, Retailer, Requested)[t - 1] == DemandAt(s.scenario, t);
    } else {
      OrdersArrive(s.scenario.initialPipelineOrders, s.history, Queue(s.orders, role), role, t);
    }
  }

  /** A queue is the last entries of everything that entered it, so its length is its delay. */
  lemma QueuesAreSuffixes(s: Session, role: Role)
    requires Kept(s) && IsKnownRole(role)
    ensures GoodsQueue(s, role) == (s.scenario.initialPipelineGoods + Inflow(s.history, role))[|s.history|..]
    ensures |GoodsQueue(s, role)| == s.scenario.shippingDelay == s.scenario.productionDelay
    ensures !role.Retailer? ==>
              && Queue(s.orders, role) ==
                 (s.scenario.initialPipelineOrders + Column(s.history, Customer(role), Placed))[|s.history|..]
              && |Queue(s.orders, role)| == s.scenario.orderDelay
  {
    hide PastKept, NodeKept, NoNegatives, HistoryKept, NodeByRole;
    assert RoleKept(s, role);
    var out, orders := Column(s.history, role, Received), Column(s.history, role, Requested);
    assert GoodsQueue(s, role) == (out + GoodsQueue(s, role))[|out|..];
    assert Queue(s.orders, role) == (orders + Queue(s.orders, role))[|orders|..];
  }

  // ---------- The closed form ----------

  /** The orders each role placed, week by week. */
  datatype Book = Book(factory: seq<int>, distributor: seq<int>, wholesaler: seq<int>, retailer: seq<int>) {
    ghost function Of(role: Role): seq<int> {
      match role
      case Factory => factory
      case Distributor => distributor
      case Wholesaler => wholesaler
      case Retailer => retailer
      case _ => []
    }
  }

  ghost function BookOf(history: seq<WeekState>): Book {
    Book(Column(history, Factory, Placed), Column(history, Distributor, Placed),
         Column(history, Wholesaler, Placed), Column(history, Retailer, Placed))
  }

  ghost function Rank(role: Role): nat {
    match role
    case Distributor => 1
    case Wholesaler => 2
    case Retailer => 3
    case _ => 0
  }

  ghost function CumDemand(sc: Scenario, n: int): int {
    if n <= 0 then 0 else CumDemand(sc, n - 1) + DemandAt(sc, n)
  }

  /** Goods a role has received by week n, orders it has received, and what it has shipped,
      as functions of the scenario and the orders placed: no queue, stock or debt occurs. */
  ghost function CumGoods(sc: Scenario, book: Book, role: Role, n: int): int
    requires IsKnownRole(role)
    decreases Rank(role), 0
  {
    SumFirst(sc.initialPipelineGoods, n) +
    if role.Factory? then SumFirst(book.factory, n - sc.productionDelay)
    else CumShipped(sc, book, Supplier(role), n - sc.shippingDelay)
  }

  ghost function CumOrders(sc: Scenario, book: Book, role: Role, n: int): int
    requires IsKnownRole(role)
  {
    if role.Retailer? then CumDemand(sc, n)
    else SumFirst(sc.initialPipelineOrders, n) + SumFirst(book.Of(Customer(role)), n - sc.orderDelay)
  }

  ghost function CumShipped(sc: Scenario, book: Book, role: Role, n: int): int
    requires IsKnownRole(role)
    decreases Rank(role), 1
  {
    if n <= 0 then 0
    else MinInt(sc.initialInventory + CumGoods(sc, book, role, n), sc.initialBacklog + CumOrders(sc, book, role, n))
  }

  /** Stock less debt at the end of week n. */
  ghost function NetPosition(sc: Scenario, book: Book, role: Role, n: int): int
    requires IsKnownRole(role)
  {
    sc.initialInventory + CumGoods(sc, book, role, n) - sc.initialBacklog - CumOrders(sc, book, role, n)
  }

  /** The whole record of a node in week n, read off the closed form. */
  ghost function ClosedNode(id: string, sc: Scenario, book: Book, role: Role, n: int): NodeState
    requires IsKnownRole(role) && 1 <= n <= |book.Of(role)|
  {
    var net := NetPosition(sc, book, role, n);
    NodeState(id + "-" + RoleName(role), role, MaxInt(net, 0), MaxInt(-net, 0),
              CumOrders(sc, book, role, n) - CumOrders(sc, book, role, n - 1),
              CumGoods(sc, book, role, n) - CumGoods(sc, book, role, n - 1),
              book.Of(role)[n - 1],
              CumShipped(sc, book, role, n) - CumShipped(sc, book, role, n - 1),
              MaxInt(net, 0) * sc.holdingCost + MaxInt(-net, 0) * sc.backlogCost)
  }

  // ---------- The program refines the closed form ----------

  ghost function Total(history: seq<WeekState>, role: Role, m: Metric, n: int): int {
    SumFirst(Column(history, role, m), n)
  }

  /** The balance of week t in terms of running totals. */
  ghost predicate WeekBalanced(sc: Scenario, history: seq<WeekState>, role: Role, t: nat)
    requires t <= |history|
  {
    && Total(history, role, Received, t) ==
       SumFirst(sc.initialPipelineGoods, t) + SumFirst(Inflow(history, role), t - sc.shippingDelay)
    && Total(history, role, Requested, t) ==
       (if role.Retailer? then CumDemand(sc, t)
        else SumFirst(sc.initialPipelineOrders, t) + Total(history, Customer(role), Placed, t - sc.orderDelay))
    && (t > 0 ==>
          var node, shipped := NodeByRole(history[t - 1].nodes, role), Total(history, role, Shipped, t);
          var had := sc.initialInventory + Total(history, role, Received, t);
          var owed := sc.initialBacklog + Total(history, role, Requested, t);
          && shipped == MinInt(had, owed)
          && node.inventory == had - shipped
          && node.backlog == owed - shipped)
  }

  lemma {:induction false} DemandTotal(sc: Scenario, history: seq<WeekState>, t: nat)
    requires DemandKept(sc, history) && t <= |history|
    ensures Total(history, Retailer, Requested, t) == CumDemand(sc, t)
  {
    if t > 0 {
      DemandTotal(sc, history, t - 1);
      assert Column(history, Retailer, Requested)[t - 1] == DemandAt(sc, t);
    }
  }

  lemma TotalOfPrefix(history: seq<WeekState>, role: Role, m: Metric, t: nat)
    requires t <= |history|
    ensures Sum(Column(history[..t], role, m)) == Total(history, role, m, t)
  {
    SumFirstAgrees(Column(history[..t], role, m), Column(history, role, m), t);
  }

  lemma NodeBalanced(sc: Scenario, history: seq<WeekState>, role: Role, t: nat)
    requires 1 <= t <= |history|
    requires NodeKept(sc, history[..t], NodeByRole(history[t - 1].nodes, role), role)
    ensures var node, shipped := NodeByRole(history[t - 1].nodes, role), Total(history, role, Shipped, t);
            var had := sc.initialInventory + Total(history, role, Received, t);
            var owed := sc.initialBacklog + Total(history, role, Requested, t);
            && shipped == MinInt(had, owed)
            && node.inventory == had - shipped
            && node.backlog == owed - shipped
  {
    TotalOfPrefix(history, role, Shipped, t);
    TotalOfPrefix(history, role, Received, t);
    TotalOfPrefix(history, role, Requested, t);
  }

  lemma RoleBalanced(s: Session, role: Role, t: nat)
    requires RoleKept(s, role) && t <= |s.history|
    requires |s.scenario.initialPipelineGoods| == s.scenario.shippingDelay
    requires |s.scenario.initialPipelineOrders| == s.scenario.orderDelay
    ensures WeekBalanced(s.scenario, s.history, role, t)
  {
    hide NoNegatives, NodeKept, NodeByRole, GoodsQueue, SumFirst;
    var sc, h := s.scenario, s.history;
    FifoTotal(Column(h, role, Received), GoodsQueue(s, role), sc.initialPipelineGoods, Inflow(h, role), t);
    if role.Retailer? {
      DemandTotal(sc, h, t);
    } else {
      FifoTotal(Column(h, role, Requested), Queue(s.orders, role), sc.initialPipelineOrders,
                Column(h, Customer(role), Placed), t);
    }
    if t > 0 {
      assert NodeKept(sc, h[..t - 1 + 1], NodeByRole(h[t - 1].nodes, role), role);
      NodeBalanced(sc, h, role, t);
    }
  }

  ghost predicate Balanced(sc: Scenario, history: seq<WeekState>) {
    forall role, t: nat :: IsKnownRole(role) && t <= |history| ==> WeekBalanced(sc, history, role, t)
  }

  lemma {:induction false} TotalsClosed(sc: Scenario, history: seq<WeekState>, role: Role, t: nat)
    requires Balanced(sc, history) && IsKnownRole(role) && t <= |history|
    requires sc.productionDelay == sc.shippingDelay > 0 && sc.orderDelay > 0
    ensures var book := BookOf(history);
            && Total(history, role, Received, t) == CumGoods(sc, book, role, t)
            && Total(history, role, Requested, t) == CumOrders(sc, book, role, t)
            && Total(history, role, Shipped, t) == CumShipped(sc, book, role, t)
    decreases Rank(role)
  {
    hide Column, NodeByRole;
    assert WeekBalanced(sc, history, role, t);
    if !role.Factory? && t >= sc.shippingDelay {
      TotalsClosed(sc, history, Supplier(role), t - sc.shippingDelay);
    }
  }

  /** The closed form of a run: in every week, cumulative arrivals, orders and shipments of
      every role are the min-plus expressions, and the recorded node is the closed one. */
  lemma ClosedForm(s: Session, role: Role, t: nat)
    requires Kept(s) && IsKnownRole(role) && 1 <= t <= s.currentWeek
    ensures var sc, book := s.scenario, BookOf(s.history);
            && Total(s.history, role, Shipped, t) == CumShipped(sc, book, role, t)
            && NodeByRole(s.history[t - 1].nodes, role) == ClosedNode(s.id, sc, book, role, t)
  {
    hide NodeByRole, WeekBalanced, GoodsKept, OrdersKept, NodeKept, NoNegatives, CumGoods, CumOrders, CumShipped;
    var sc, h := s.scenario, s.history;
    forall r, n: nat | IsKnownRole(r) && n <= |h| ensures WeekBalanced(sc, h, r, n) {
      assert RoleKept(s, r);
      RoleBalanced(s, r, n);
    }
    TotalsClosed(sc, h, role, t);
    TotalsClosed(sc, h, role, t - 1);
    assert RoleKept(s, role);
    NodeClosed(s.id, sc, h, role, t);
  }

  lemma LastOfTotal(history: seq<WeekState>, role: Role, m: Metric, t: nat)
    requires 1 <= t <= |history|
    ensures Get(NodeByRole(history[t - 1].nodes, role), m) ==
            Total(history, role, m, t) - Total(history, role, m, t - 1)
  {
    assert Column(history, role, m)[t - 1] == Get(NodeByRole(history[t - 1].nodes, role), m);
  }

  lemma NodeClosed(id: string, sc: Scenario, history: seq<WeekState>, role: Role, t: nat)
    requires Balanced(sc, history) && IsKnownRole(role) && 1 <= t <= |history|
    requires sc.productionDelay == sc.shippingDelay > 0 && sc.orderDelay > 0
    requires PastKept(id, sc, history, role)
    ensures NodeByRole(history[t - 1].nodes, role) == ClosedNode(id, sc, BookOf(history), role, t)
  {
    hide NodeByRole, NodeKept, SumFirst, CumGoods, CumOrders;
    TotalsClosed(sc, history, role, t);
    TotalsClosed(sc, history, role, t - 1);
    LastOfTotal(history, role, Received, t);
    LastOfTotal(history, role, Requested, t);
    LastOfTotal(history, role, Shipped, t);
    assert WeekBalanced(sc, history, role, t);
    var node := NodeByRole(history[t - 1].nodes, role);
    assert node.placedOrder == Column(history, role, Placed)[t - 1];
  }

  /** The orders recorded in a run's history are the decisions it was played with. */
  lemma {:induction false} PlayRecordsDecisions(start: Session, weeks: seq<Decisions>, role: Role, i: nat)
    requires IsFresh(start) && Playable(start, weeks) && IsKnownRole(role) && i < |weeks|
    ensures |Play(start, weeks).history| == |weeks|
    ensures Complete(weeks[i]) && NodeByRole(Play(start, weeks).history[i].nodes, role).placedOrder == weeks[i][role]
  {
    hide RoleKept, NodeByRole, IsFresh, NextNodes, PushedGoods, PushedOrders, CostOf;
    RunKept(start, weeks);
    var front, last := weeks[..|weeks| - 1], weeks[|weeks| - 1];
    RunKept(start, front);
    if i == |front| {
      NextNodeFacts(Play(start, front), last, role);
    } else {
      PlayRecordsDecisions(start, front, role, i);
    }
  }

  // ---------- The chain's closed form, unrolled ----------

  ghost function Least(values: seq<int>): int
    requires values != []
  {
    if |values| == 1 then values[0] else MinInt(values[0], Least(values[1..]))
  }

  lemma {:induction false} LeastIsMinimum(values: seq<int>)
    requires values != []
    ensures Least(values) in values
    ensures forall i :: 0 <= i < |values| ==> Least(values) <= values[i]
  {
    if |values| > 1 {
      LeastIsMinimum(values[1..]);
      forall i | 0 <= i < |values| ensures Least(values) <= values[i] {
        assert i > 0 ==> values[i] == values[1..][i - 1];
      }
    }
  }

  /** What a role has by week n without anything its supplier ships: its first stock, and as
      much of its first pipeline as has arrived. */
  ghost function OwnGoods(sc: Scenario, n: int): int {
    sc.initialInventory + SumFirst(sc.initialPipelineGoods, n)
  }

  /** The terms that bound what a role has shipped by week n, stage by stage up the chain: the
      orders that have reached the stage, behind all that the stages below it had at first;
      then the stage above, one shipping delay earlier. The chain ends at production, or at
      the stage whose shipments cannot have arrived yet. */
  ghost function Terms(sc: Scenario, book: Book, role: Role, n: int, held: int): (r: seq<int>)
    requires IsKnownRole(role)
    ensures r != []
    decreases Rank(role)
  {
    if n <= 0 then [held]
    else
      [held + sc.initialBacklog + CumOrders(sc, book, role, n)] +
      if role.Factory? then [held + OwnGoods(sc, n) + SumFirst(book.factory, n - sc.productionDelay)]
      else Terms(sc, book, Supplier(role), n - sc.shippingDelay, held + OwnGoods(sc, n))
  }

  /** Cumulative shipments of every role in every week are the least of these terms: one
      minimum over the whole chain, in which no stock, debt or shipment occurs. */
  lemma {:induction false} ChainUnrolled(sc: Scenario, book: Book, role: Role, n: int, held: int)
    requires IsKnownRole(role)
    ensures held + CumShipped(sc, book, role, n) == Least(Terms(sc, book, role, n, held))
    decreases Rank(role)
  {
    hide CumOrders, SumFirst, CumShipped, CumGoods, Least;
    ShippedOf(sc, book, role, n);
    var first := held + sc.initialBacklog + CumOrders(sc, book, role, n);
    if n <= 0 {
      LeastOfOne(held);
    } else if role.Factory? {
      LeastOfTwo(first, held + OwnGoods(sc, n) + SumFirst(book.factory, n - sc.productionDelay));
    } else {
      ChainUnrolled(sc, book, Supplier(role), n - sc.shippingDelay, held + OwnGoods(sc, n));
      LeastCons(first, Terms(sc, book, Supplier(role), n - sc.shippingDelay, held + OwnGoods(sc, n)));
    }
  }

  /** One stage: the smaller of what it was asked for and what reached it. */
  lemma ShippedOf(sc: Scenario, book: Book, role: Role, n: int)
    requires IsKnownRole(role)
    ensures CumShipped(sc, book, role, n) ==
            if n <= 0 then 0
            else MinInt(sc.initialBacklog + CumOrders(sc, book, role, n),
                        OwnGoods(sc, n) + if role.Factory? then SumFirst(book.factory, n - sc.productionDelay)
                                      else CumShipped(sc, book, Supplier(role), n - sc.shippingDelay))
  {
    hide CumOrders, SumFirst;
  }

  lemma LeastOfOne(x: int)
    ensures Least([x]) == x
  {}

  lemma LeastCons(x: int, values: seq<int>)
    requires values != []
    ensures Least([x] + values) == MinInt(x, Least(values))
  {
    assert ([x] + values)[1..] == values;
  }

  lemma LeastOfTwo(x: int, y: int)
    ensures Least([x] + [y]) == MinInt(x, y)
  {
    LeastOfOne(y);
    LeastCons(x, [y]);
  }

  /** In every week of a game what a role has shipped so far, for the retailer all that was
      sold, is the least of the terms of the chain above it. */
  lemma ShipmentsUnrolled(s: Session, role: Role, t: nat)
    requires Kept(s) && IsKnownRole(role) && 1 <= t <= s.currentWeek
    ensures Total(s.history, role, Shipped, t) == Least(Terms(s.scenario, BookOf(s.history), role, t, 0))
  {
    hide Kept, CumShipped, Total, Terms, Least;
    ClosedForm(s, role, t);
    ChainUnrolled(s.scenario, BookOf(s.history), role, t, 0);
  }

  /** The retailer's terms after three shipping delays: the customers' demand, the orders that
      reached each supplier, and production. */
  ghost function FiveTerms(sc: Scenario, book: Book, t: int): (r: seq<int>)
    ensures r != []
  {
    var stage, delay := sc.initialInventory + Sum(sc.initialPipelineGoods), sc.shippingDelay;
    [sc.initialBacklog + CumDemand(sc, t),
     stage + sc.initialBacklog + CumOrders(sc, book, Wholesaler, t - delay),
     2 * stage + sc.initialBacklog + CumOrders(sc, book, Distributor, t - 2 * delay),
     3 * stage + sc.initialBacklog + CumOrders(sc, book, Factory, t - 3 * delay),
     3 * stage + sc.initialInventory + CumGoods(sc, book, Factory, t - 3 * delay)]
  }

  lemma RetailerTerms(sc: Scenario, book: Book, t: int)
    requires |sc.initialPipelineGoods| == sc.shippingDelay > 0 && 3 * sc.shippingDelay < t
    ensures Terms(sc, book, Retailer, t, 0) == FiveTerms(sc, book, t)
  {
    hide CumOrders, Sum, CumDemand, Terms, CumGoods;
    var stage, delay := sc.initialInventory + Sum(sc.initialPipelineGoods), sc.shippingDelay;
    RetailerOrders(sc, book, t);
    TermsAbove(sc, book, Retailer, t, 0);
    TermsAbove(sc, book, Wholesaler, t - delay, stage);
    TermsAbove(sc, book, Distributor, t - 2 * delay, 2 * stage);
    FactoryTerms(sc, book, t - 3 * delay, 3 * stage);
    assert t - delay - delay == t - 2 * delay && t - 2 * delay - delay == t - 3 * delay;
  }

  /** After three shipping delays all that was sold is the least of five terms. */
  lemma RetailerUnrolled(s: Session, t: nat)
    requires Kept(s) && 3 * s.scenario.shippingDelay < t <= s.currentWeek
    ensures Total(s.history, Retailer, Shipped, t) == Least(FiveTerms(s.scenario, BookOf(s.history), t))
  {
    hide RoleKept, HistoryKept, Total, Terms, FiveTerms, Least;
    ShipmentsUnrolled(s, Retailer, t);
    RetailerTerms(s.scenario, BookOf(s.history), t);
  }

  lemma RetailerOrders(sc: Scenario, book: Book, n: int)
    ensures CumOrders(sc, book, Retailer, n) == CumDemand(sc, n)
  {}

  /** A stage whose whole first pipeline has arrived. */
  lemma TermsAbove(sc: Scenario, book: Book, role: Role, n: int, held: int)
    requires IsKnownRole(role) && !role.Factory? && n > 0 && n >= |sc.initialPipelineGoods|
    ensures Terms(sc, book, role, n, held) ==
            [held + sc.initialBacklog + CumOrders(sc, book, role, n)] +
            Terms(sc, book, Supplier(role), n - sc.shippingDelay,
                  held + sc.initialInventory + Sum(sc.initialPipelineGoods))
  {
    hide CumOrders, SumFirst;
    SumFirstPast(sc.initialPipelineGoods, n);
  }

  lemma FactoryTerms(sc: Scenario, book: Book, n: int, held: int)
    requires n > 0
    ensures Terms(sc, book, Factory, n, held) ==
            [held + sc.initialBacklog + CumOrders(sc, book, Factory, n),
             held + sc.initialInventory + CumGoods(sc, book, Factory, n)]
  {
    hide CumOrders, SumFirst;
  }

  // ---------- Conservation ----------

  lemma GoodsBalance(s: Session, role: Role)
    requires RoleKept(s, role)
    ensures NodeByRole(s.nodes, role).inventory + Sum(GoodsQueue(s, role)) ==
            s.scenario.initialInventory + Sum(s.scenario.initialPipelineGoods) +
            Sum(Inflow(s.history, role)) - Sum(Column(s.history, role, Shipped))
  {
    hide PastKept, OrdersKept, DemandKept, NoNegatives, NodeByRole, GoodsQueue, Sum;
    SumConcat(Column(s.history, role, Received), GoodsQueue(s, role));
    SumConcat(s.scenario.initialPipelineGoods, Inflow(s.history, role));
  }

  /** All goods: what the stages hold and what is on its way is what the game started with,
      plus all production, less everything sold. */
  lemma GoodsConserved(s: Session)
    requires Kept(s)
    ensures NodeByRole(s.nodes, Factory).inventory + NodeByRole(s.nodes, Distributor).inventory +
            NodeByRole(s.nodes, Wholesaler).inventory + NodeByRole(s.nodes, Retailer).inventory +
            Sum(s.production) + Sum(Queue(s.goods, Distributor)) +
            Sum(Queue(s.goods, Wholesaler)) + Sum(Queue(s.goods, Retailer)) ==
            4 * s.scenario.initialInventory + 4 * Sum(s.scenario.initialPipelineGoods) +
            Sum(Column(s.history, Factory, Placed)) - Sum(Column(s.history, Retailer, Shipped))
  {
    hide RoleKept, HistoryKept, NodeByRole, Column, Sum;
    GoodsBalance(s, Factory);
    GoodsBalance(s, Distributor);
    GoodsBalance(s, Wholesaler);
    GoodsBalance(s, Retailer);
  }

  /** All orders of a link: everything ever asked for has been shipped, is still owed, or
      has not reached the supplier yet. */
  lemma OrdersConserved(s: Session, role: Role)
    requires Kept(s) && IsKnownRole(role) && !role.Retailer?
    ensures s.scenario.initialBacklog + Sum(s.scenario.initialPipelineOrders) +
            Sum(Column(s.history, Customer(role), Placed)) ==
            Sum(Column(s.history, role, Shipped)) + NodeByRole(s.nodes, role).backlog + Sum(Queue(s.orders, role))
  {
    hide PastKept, GoodsKept, NoNegatives, HistoryKept, NodeByRole, Sum;
    assert RoleKept(s, role);
    SumConcat(Column(s.history, role, Requested), Queue(s.orders, role));
    SumConcat(s.scenario.initialPipelineOrders, Column(s.history, Customer(role), Placed));
  }

  lemma QueueNonNegative(out: seq<int>, queue: seq<int>, initial: seq<int>, sent: seq<int>)
    requires out + queue == initial + sent && NonNegative(initial) && NonNegative(sent)
    ensures Sum(queue) >= 0
  {
    forall i | 0 <= i < |queue| ensures queue[i] >= 0 {
      assert queue[i] == (out + queue)[|out| + i] == (initial + sent)[|out| + i];
    }
    SumFirstNonNegative(queue, |queue|);
  }

  lemma GoodsQueueNonNegative(s: Session, role: Role)
    requires Kept(s) && IsKnownRole(role)
    ensures Sum(GoodsQueue(s, role)) >= 0 && NodeByRole(s.nodes, role).inventory >= 0
  {
    hide PastKept, OrdersKept, DemandKept, HistoryKept, NodeByRole, Column, Sum;
    assert RoleKept(s, role);
    assert role.Factory? || RoleKept(s, Supplier(role));
    QueueNonNegative(Column(s.history, role, Received), GoodsQueue(s, role), s.scenario.initialPipelineGoods,
                     Inflow(s.history, role));
  }

  /** No stage ever holds more than the game started with plus all production so far. */
  lemma InventoryBound(s: Session, role: Role)
    requires Kept(s) && IsKnownRole(role)
    ensures 0 <= NodeByRole(s.nodes, role).inventory <=
            4 * s.scenario.initialInventory + 4 * Sum(s.scenario.initialPipelineGoods) +
            Sum(Column(s.history, Factory, Placed))
  {
    hide PastKept, GoodsKept, OrdersKept, DemandKept, NodeKept, HistoryKept, NodeByRole;
    GoodsConserved(s);
    forall r | IsKnownRole(r) ensures Sum(GoodsQueue(s, r)) >= 0 && NodeByRole(s.nodes, r).inventory >= 0 {
      GoodsQueueNonNegative(s, r);
    }
    assert Sum(GoodsQueue(s, Factory)) >= 0 && Sum(GoodsQueue(s, Distributor)) >= 0;
    assert Sum(GoodsQueue(s, Wholesaler)) >= 0 && Sum(GoodsQueue(s, Retailer)) >= 0;
    assert RoleKept(s, Retailer);
    SumFirstNonNegative(Column(s.history, Retailer, Shipped), |s.history|);
  }
}
