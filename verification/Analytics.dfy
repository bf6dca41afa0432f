/** Session analytics: one pass over the history into per-role maps, and the figures read
    from them. Models internal/domain/analytics.go with averages and variances over reals. */
module Analytics {
  import opened Common
  import opened Sums
  import opened Chain
  import opened ChainLaws

  datatype NodeAnalytics = NodeAnalytics(
    role: Role,
    totalCost: int,
    averageInventory: real,
    totalBacklog: int,
    totalOrders: int,
    orderVariance: real)

  datatype SessionAnalytics = SessionAnalytics(
    totalWeeks: nat,
    totalCost: int,
    demandVariance: real,
    nodeAnalytics: seq<NodeAnalytics>,
    orderVariance: map<Role, real>,
    bullwhipEffect: map<Role, real>)

  // ---------- Specification: filter, then fold ----------

  function AllNodes(history: seq<WeekState>): seq<NodeState> {
    if history == [] then [] else AllNodes(history[..|history| - 1]) + history[|history| - 1].nodes
  }

  function OfRole(nodes: seq<NodeState>, role: Role): seq<NodeState> {
    if nodes == [] then []
    else
      var front, last := nodes[..|nodes| - 1], nodes[|nodes| - 1];
      OfRole(front, role) + (if last.role == role then [last] else [])
  }

  function Figures(nodes: seq<NodeState>, m: Metric): seq<int> {
    seq(|nodes|, i requires 0 <= i < |nodes| => Get(nodes[i], m))
  }

  /** The figures of one role, in the order the history lists them. */
  function Series(nodes: seq<NodeState>, role: Role, m: Metric): seq<int> {
    Figures(OfRole(nodes, role), m)
  }

  function Mean(values: seq<int>): real {
    if |values| == 0 then 0.0 else Sum(values) as real / |values| as real
  }

  function Square(x: real): real {
    x * x
  }

  function SquaredDeviations(values: seq<int>, mean: real, n: nat): real
    requires n <= |values|
  {
    if n == 0 then 0.0
    else SquaredDeviations(values, mean, n - 1) + Square(values[n - 1] as real - mean)
  }

  /** Population variance; zero for an empty series. */
  function Variance(values: seq<int>): real {
    if |values| == 0 then 0.0 else SquaredDeviations(values, Mean(values), |values|) / |values| as real
  }

  function RoleReport(nodes: seq<NodeState>, role: Role): NodeAnalytics {
    NodeAnalytics(role, Sum(Series(nodes, role, Cost)), Mean(Series(nodes, role, Stock)),
                  Sum(Series(nodes, role, Owed)), Sum(Series(nodes, role, Placed)),
                  Variance(Series(nodes, role, Placed)))
  }

  function Bullwhip(roleVariance: real, demandVariance: real): real {
    if demandVariance > 0.0 then roleVariance / demandVariance else 0.0
  }

  function DemandSeries(history: seq<WeekState>): seq<int> {
    Series(AllNodes(history), Retailer, Requested)
  }

  function WeekCosts(history: seq<WeekState>): seq<int> {
    seq(|history|, i requires 0 <= i < |history| => history[i].totalCost)
  }

  /** The per-role parts of the report for the first n roles. */
  function RoleReports(nodes: seq<NodeState>, n: nat): seq<NodeAnalytics>
    requires n <= 4
  {
    if n == 0 then [] else RoleReports(nodes, n - 1) + [RoleReport(nodes, ALL_ROLES[n - 1])]
  }

  function RoleVariances(nodes: seq<NodeState>, n: nat): map<Role, real>
    requires n <= 4
  {
    if n == 0 then map[]
    else RoleVariances(nodes, n - 1)[ALL_ROLES[n - 1] := RoleReport(nodes, ALL_ROLES[n - 1]).orderVariance]
  }

  function RoleBullwhips(nodes: seq<NodeState>, demandVariance: real, n: nat): map<Role, real>
    requires n <= 4
  {
    if n == 0 then map[]
    else
      RoleBullwhips(nodes, demandVariance, n - 1)
        [ALL_ROLES[n - 1] := Bullwhip(RoleReport(nodes, ALL_ROLES[n - 1]).orderVariance, demandVariance)]
  }

  /** The report, each figure from its own filtered series. */
  function Report(history: seq<WeekState>): SessionAnalytics {
    if history == [] then SessionAnalytics(0, 0, 0.0, [], map[], map[])
    else
      var nodes, demandVariance := AllNodes(history), Variance(DemandSeries(history));
      SessionAnalytics(|history|, Sum(WeekCosts(history)), demandVariance, RoleReports(nodes, 4),
                       RoleVariances(nodes, 4), RoleBullwhips(nodes, demandVariance, 4))
  }

  // ---------- The program's loops ----------

  method SumInts(values: seq<int>) returns (total: int)
    ensures total == Sum(values)
  {
    total := 0;
    for i := 0 to |values|
      invariant total == SumFirst(values, i)
    {
      total := total + values[i];
    }
  }

  method AverageInts(values: seq<int>) returns (average: real)
    ensures average == Mean(values)
  {
    if |values| == 0 {
      return 0.0;
    }
    var total := SumInts(values);
    average := total as real / |values| as real;
  }

  method VarianceInts(values: seq<int>) returns (variance: real)
    ensures variance == Variance(values)
  {
    if |values| == 0 {
      return 0.0;
    }
    var mean := AverageInts(values);
    var sum := 0.0;
    for i := 0 to |values|
      invariant sum == SquaredDeviations(values, mean, i)
    {
      var diff := values[i] as real - mean;
      sum := sum + diff * diff;
    }
    variance := sum / |values| as real;
  }

  /** A missing entry of a Go map reads as the zero value. */
  function EntryOf(m: map<Role, seq<int>>, role: Role): seq<int> {
    if role in m then m[role] else []
  }

  function CountOf(m: map<Role, int>, role: Role): int {
    if role in m then m[role] else 0
  }

  lemma OfRoleSnoc(nodes: seq<NodeState>, node: NodeState, role: Role, m: Metric)
    ensures Series(nodes + [node], role, m) ==
            if node.role == role then Series(nodes, role, m) + [Get(node, m)] else Series(nodes, role, m)
  {
    assert (nodes + [node])[..|nodes|] == nodes;
  }

  /** One accumulator map after the nodes seen so far. */
  ghost predicate Collected(m: map<Role, seq<int>>, nodes: seq<NodeState>, metric: Metric) {
    forall role :: EntryOf(m, role) == Series(nodes, role, metric)
  }

  ghost predicate Counted(m: map<Role, int>, nodes: seq<NodeState>) {
    forall role :: CountOf(m, role) == Sum(Series(nodes, role, Cost))
  }

  lemma NothingCollected()
    ensures Collected(map[], [], Placed) && Collected(map[], [], Stock) && Collected(map[], [], Owed)
    ensures Counted(map[], []) && Series([], Retailer, Requested) == []
  {}

  method Collect(m: map<Role, seq<int>>, node: NodeState, value: int, ghost nodes: seq<NodeState>, ghost metric: Metric)
    returns (r: map<Role, seq<int>>)
    requires Collected(m, nodes, metric) && value == Get(node, metric)
    ensures Collected(r, nodes + [node], metric)
  {
    r := m[node.role := (if node.role in m then m[node.role] else []) + [value]];
    forall role ensures EntryOf(r, role) == Series(nodes + [node], role, metric) {
      OfRoleSnoc(nodes, node, role, metric);
      assert EntryOf(m, role) == Series(nodes, role, metric);
    }
  }

  method Count(m: map<Role, int>, node: NodeState, ghost nodes: seq<NodeState>) returns (r: map<Role, int>)
    requires Counted(m, nodes)
    ensures Counted(r, nodes + [node])
  {
    r := m[node.role := (if node.role in m then m[node.role] else 0) + node.weeklyCost];
    forall role ensures CountOf(r, role) == Sum(Series(nodes + [node], role, Cost)) {
      OfRoleSnoc(nodes, node, role, Cost);
      SumSnoc(Series(nodes, role, Cost), node.weeklyCost);
      assert CountOf(m, role) == Sum(Series(nodes, role, Cost));
    }
  }

  /** The accumulation loop: one pass, every role at once. */
  method Accumulate(history: seq<WeekState>)
    returns (totalCost: int, demand: seq<int>, orders: map<Role, seq<int>>, inventory: map<Role, seq<int>>,
             backlog: map<Role, seq<int>>, cost: map<Role, int>)
    ensures totalCost == Sum(WeekCosts(history)) && demand == DemandSeries(history)
    ensures Collected(orders, AllNodes(history), Placed) && Collected(inventory, AllNodes(history), Stock)
    ensures Collected(backlog, AllNodes(history), Owed) && Counted(cost, AllNodes(history))
  {
    hide Collected, Counted, OfRole, Figures;
    totalCost, demand, orders, inventory, backlog, cost := 0, [], map[], map[], map[], map[];
    ghost var seen: seq<NodeState> := [];
    NothingCollected();
    for i := 0 to |history|
      invariant seen == AllNodes(history[..i])
      invariant totalCost == SumFirst(WeekCosts(history), i) && demand == Series(seen, Retailer, Requested)
      invariant Collected(orders, seen, Placed) && Collected(inventory, seen, Stock)
      invariant Collected(backlog, seen, Owed) && Counted(cost, seen)
    {
      totalCost := totalCost + history[i].totalCost;
      var nodes := history[i].nodes;
      ghost var before := seen;
      for k := 0 to |nodes|
        invariant seen == before + nodes[..k]
        invariant demand == Series(seen, Retailer, Requested)
        invariant Collected(orders, seen, Placed) && Collected(inventory, seen, Stock)
        invariant Collected(backlog, seen, Owed) && Counted(cost, seen)
      {
        var node := nodes[k];
        orders := Collect(orders, node, node.placedOrder, seen, Placed);
        inventory := Collect(inventory, node, node.inventory, seen, Stock);
        backlog := Collect(backlog, node, node.backlog, seen, Owed);
        cost := Count(cost, node, seen);
        OfRoleSnoc(seen, node, Retailer, Requested);
        if node.role == Retailer {
          demand := demand + [node.incomingOrder];
        }
        seen := seen + [node];
      }
      assert history[..i + 1][..i] == history[..i];
    }
    assert history[..|history|] == history;
  }

  method ReportRole(role: Role, orders: seq<int>, inventory: seq<int>, backlog: seq<int>, cost: int,
                    ghost nodes: seq<NodeState>)
    returns (r: NodeAnalytics)
    requires orders == Series(nodes, role, Placed) && inventory == Series(nodes, role, Stock)
    requires backlog == Series(nodes, role, Owed) && cost == Sum(Series(nodes, role, Cost))
    ensures r == RoleReport(nodes, role)
  {
    var variance := VarianceInts(orders);
    var average := AverageInts(inventory);
    var totalBacklog := SumInts(backlog);
    var totalOrders := SumInts(orders);
    r := NodeAnalytics(role, cost, average, totalBacklog, totalOrders, variance);
  }

  method CalculateSessionAnalytics(history: seq<WeekState>) returns (r: SessionAnalytics)
    ensures r == Report(history)
  {
    hide AllNodes, Variance, RoleReport, Series, Sum;
    if |history| == 0 {
      return SessionAnalytics(0, 0, 0.0, [], map[], map[]);
    }
    ghost var nodes := AllNodes(history);
    var totalCost, demand, orders, inventory, backlog, cost := Accumulate(history);
    var demandVariance := VarianceInts(demand);
    var reports: seq<NodeAnalytics> := [];
    var variances: map<Role, real> := map[];
    var bullwhip: map<Role, real> := map[];
    for i := 0 to 4
      invariant reports == RoleReports(nodes, i) && variances == RoleVariances(nodes, i)
      invariant bullwhip == RoleBullwhips(nodes, demandVariance, i)
    {
      var role := ALL_ROLES[i];
      assert EntryOf(orders, role) == Series(nodes, role, Placed);
      assert EntryOf(inventory, role) == Series(nodes, role, Stock);
      assert EntryOf(backlog, role) == Series(nodes, role, Owed);
      assert CountOf(cost, role) == Sum(Series(nodes, role, Cost));
      var report := ReportRole(role, EntryOf(orders, role), EntryOf(inventory, role), EntryOf(backlog, role),
                               CountOf(cost, role), nodes);
      reports := reports + [report];
      variances := variances[role := report.orderVariance];
      bullwhip := bullwhip[role := Bullwhip(report.orderVariance, demandVariance)];
    }
    r := SessionAnalytics(|history|, totalCost, demandVariance, reports, variances, bullwhip);
  }

  // ---------- On the histories of real sessions ----------

  ghost predicate Regular(history: seq<WeekState>) {
    forall i :: 0 <= i < |history| ==> InRoleOrder(history[i].nodes)
  }

  lemma {:induction false} OfRoleConcat(a: seq<NodeState>, b: seq<NodeState>, role: Role)
    ensures OfRole(a + b, role) == OfRole(a, role) + OfRole(b, role)
    decreases |b|
  {
    if b == [] {
      assert a + b == a;
    } else {
      assert (a + b)[..|a + b| - 1] == a + b[..|b| - 1];
      OfRoleConcat(a, b[..|b| - 1], role);
    }
  }

  lemma OfRoleRegular(nodes: seq<NodeState>, role: Role)
    requires InRoleOrder(nodes) && IsKnownRole(role)
    ensures OfRole(nodes, role) == [NodeByRole(nodes, role)]
  {
    hide OfRole, NodeByRole;
    LookUp(nodes);
    assert nodes == [nodes[0]] + [nodes[1]] + [nodes[2]] + [nodes[3]];
    OfRoleConcat([nodes[0]] + [nodes[1]] + [nodes[2]], [nodes[3]], role);
    OfRoleConcat([nodes[0]] + [nodes[1]], [nodes[2]], role);
    OfRoleConcat([nodes[0]], [nodes[1]], role);
    OfRoleOne(nodes[0], role);
    OfRoleOne(nodes[1], role);
    OfRoleOne(nodes[2], role);
    OfRoleOne(nodes[3], role);
  }

  lemma OfRoleOne(node: NodeState, role: Role)
    ensures OfRole([node], role) == if node.role == role then [node] else []
  {
    assert [node][..0] == [];
  }

  /** A regular history has one figure per week, the one of the role's node. */
  lemma {:induction false} SeriesIsColumn(history: seq<WeekState>, role: Role, m: Metric)
    requires Regular(history) && IsKnownRole(role)
    ensures Series(AllNodes(history), role, m) == Column(history, role, m)
  {
    if history != [] {
      var front, last := history[..|history| - 1], history[|history| - 1];
      SeriesIsColumn(front, role, m);
      OfRoleConcat(AllNodes(front), last.nodes, role);
      OfRoleRegular(last.nodes, role);
      ColumnSnoc(front, last, role, m);
      assert history == front + [last];
    }
  }

  lemma {:induction false} CostsAddUp(history: seq<WeekState>)
    requires Regular(history)
    requires forall i :: 0 <= i < |history| ==> history[i].totalCost == CostOf(history[i].nodes)
    ensures Sum(WeekCosts(history)) ==
            Sum(Column(history, Factory, Cost)) + Sum(Column(history, Distributor, Cost)) +
            Sum(Column(history, Wholesaler, Cost)) + Sum(Column(history, Retailer, Cost))
  {
    if history != [] {
      var front, last := history[..|history| - 1], history[|history| - 1];
      CostsAddUp(front);
      assert history == front + [last];
      assert WeekCosts(history) == WeekCosts(front) + [last.totalCost];
      SumSnoc(WeekCosts(front), last.totalCost);
      CostOfFour(last.nodes);
      LookUp(last.nodes);
      ColumnSnoc(front, last, Factory, Cost);
      ColumnSnoc(front, last, Distributor, Cost);
      ColumnSnoc(front, last, Wholesaler, Cost);
      ColumnSnoc(front, last, Retailer, Cost);
    }
  }

  lemma {:induction false} CostOfFour(nodes: seq<NodeState>)
    requires |nodes| == 4
    ensures CostOf(nodes) == nodes[0].weeklyCost + nodes[1].weeklyCost + nodes[2].weeklyCost + nodes[3].weeklyCost
  {
    assert nodes[..3][..2] == nodes[..2] && nodes[..2][..1] == nodes[..1];
    assert CostOf(nodes[..1]) == nodes[0].weeklyCost;
    assert CostOf(nodes[..2]) == CostOf(nodes[..1]) + nodes[1].weeklyCost;
    assert CostOf(nodes[..3]) == CostOf(nodes[..2]) + nodes[2].weeklyCost;
  }

  /** The session's total cost is the sum of the four roles' total costs. */
  lemma TotalCostSplits(s: Session)
    requires Kept(s) && s.history != []
    ensures var r := Report(s.history);
            && |r.nodeAnalytics| == 4
            && r.totalCost == r.nodeAnalytics[0].totalCost + r.nodeAnalytics[1].totalCost +
                              r.nodeAnalytics[2].totalCost + r.nodeAnalytics[3].totalCost
  {
    hide RoleKept, Variance, Mean, Sum, AllNodes, OfRole, Figures, WeekCosts, Column;
    assert Regular(s.history);
    CostsAddUp(s.history);
    SeriesIsColumn(s.history, Factory, Cost);
    SeriesIsColumn(s.history, Distributor, Cost);
    SeriesIsColumn(s.history, Wholesaler, Cost);
    SeriesIsColumn(s.history, Retailer, Cost);
    ReportsListed(AllNodes(s.history));
  }

  lemma ReportsListed(nodes: seq<NodeState>)
    ensures RoleReports(nodes, 4) == [RoleReport(nodes, Factory), RoleReport(nodes, Distributor),
                                      RoleReport(nodes, Wholesaler), RoleReport(nodes, Retailer)]
  {
    hide RoleReport;
    assert RoleReports(nodes, 1) == [RoleReport(nodes, Factory)];
    assert RoleReports(nodes, 2) == [RoleReport(nodes, Factory), RoleReport(nodes, Distributor)];
    assert RoleReports(nodes, 3) == RoleReports(nodes, 2) + [RoleReport(nodes, Wholesaler)];
  }
}
