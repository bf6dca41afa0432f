/** What each figure of a session's report is, in terms of the recorded weeks. Models the
    promises of internal/domain/analytics.go for the histories of real games. */
module ReportLaws {
  import opened Common
  import opened Sums
  import opened Chain
  import opened ChainLaws
  import opened Analytics
  import opened VarianceLaws
  import opened PlayerViews

  /** A column reads one figure of the role's node, week by week. */
  lemma ColumnReads(history: seq<WeekState>, role: Role, i: nat)
    requires i < |history|
    ensures var n := NodeByRole(history[i].nodes, role);
            && Column(history, role, Shipped)[i] == n.actualShipment
            && Column(history, role, Received)[i] == n.incomingGoods
            && Column(history, role, Requested)[i] == n.incomingOrder
            && Column(history, role, Placed)[i] == n.placedOrder
            && Column(history, role, Stock)[i] == n.inventory
            && Column(history, role, Owed)[i] == n.backlog
            && Column(history, role, Cost)[i] == n.weeklyCost
  {}

  lemma MeanTimesCount(values: seq<int>)
    ensures Mean(values) * |values| as real == Sum(values) as real
    ensures values == [] ==> Mean(values) == 0.0
  {
    if values == [] {
      EmptySum(values);
    } else {
      Divided(Sum(values) as real, |values| as real);
    }
  }

  /** The figures of one role's part of a report. */
  ghost predicate PartIs(a: NodeAnalytics, history: seq<WeekState>, role: Role) {
    var n, placed := |history|, Column(history, role, Placed);
    && a.role == role
    && a.totalCost == Sum(Column(history, role, Cost))
    && a.totalBacklog == Sum(Column(history, role, Owed))
    && a.totalOrders == Sum(placed)
    && a.averageInventory * n as real == Sum(Column(history, role, Stock)) as real
    && (n * n) as real * a.orderVariance == (n * Sum(Squares(placed)) - Sum(placed) * Sum(placed)) as real
  }

  lemma PartOf(history: seq<WeekState>, role: Role)
    requires Regular(history) && IsKnownRole(role)
    ensures PartIs(RoleReport(AllNodes(history), role), history, role)
  {
    hide AllNodes, Series, Column, Variance, Mean, Sum, Squares, Regular;
    SeriesIsColumn(history, role, Cost);
    SeriesIsColumn(history, role, Owed);
    SeriesIsColumn(history, role, Placed);
    SeriesIsColumn(history, role, Stock);
    ColumnLength(history, role, Stock);
    ColumnLength(history, role, Placed);
    MeanTimesCount(Column(history, role, Stock));
    VarianceFormula(Column(history, role, Placed));
  }

  lemma ColumnLength(history: seq<WeekState>, role: Role, m: Metric)
    ensures |Column(history, role, m)| == |history|
  {}

  lemma PartsListed(nodes: seq<NodeState>, demandVariance: real, role: Role)
    requires IsKnownRole(role)
    ensures RoleVariances(nodes, 4).Keys == RoleBullwhips(nodes, demandVariance, 4).Keys ==
            {Factory, Distributor, Wholesaler, Retailer}
    ensures RoleVariances(nodes, 4)[role] == RoleReport(nodes, role).orderVariance
    ensures RoleBullwhips(nodes, demandVariance, 4)[role] ==
            Bullwhip(RoleReport(nodes, role).orderVariance, demandVariance)
  {
    hide RoleReport, Bullwhip;
    var v0, v1, v2 := RoleVariances(nodes, 0), RoleVariances(nodes, 1), RoleVariances(nodes, 2);
    var v3 := RoleVariances(nodes, 3);
    var b0, b1 := RoleBullwhips(nodes, demandVariance, 0), RoleBullwhips(nodes, demandVariance, 1);
    var b2, b3 := RoleBullwhips(nodes, demandVariance, 2), RoleBullwhips(nodes, demandVariance, 3);
    assert v0 == map[] && v1 == v0[Factory := RoleReport(nodes, Factory).orderVariance];
    assert v2 == v1[Distributor := RoleReport(nodes, Distributor).orderVariance];
    assert v3 == v2[Wholesaler := RoleReport(nodes, Wholesaler).orderVariance];
    assert b0 == map[] && b1 == b0[Factory := Bullwhip(RoleReport(nodes, Factory).orderVariance, demandVariance)];
    assert b2 == b1[Distributor := Bullwhip(RoleReport(nodes, Distributor).orderVariance, demandVariance)];
    assert b3 == b2[Wholesaler := Bullwhip(RoleReport(nodes, Wholesaler).orderVariance, demandVariance)];
  }

  lemma BullwhipIsRatio(roleVariance: real, demandVariance: real)
    ensures demandVariance > 0.0 ==> Bullwhip(roleVariance, demandVariance) * demandVariance == roleVariance
    ensures demandVariance <= 0.0 ==> Bullwhip(roleVariance, demandVariance) == 0.0
  {
    if demandVariance > 0.0 {
      Divided(roleVariance, demandVariance);
    }
  }

  /** The report of a game with played weeks: for any role, the part at the role's place, which
      is the one found for it, has the role's own figures. */
  lemma ReportIs(s: Session, role: Role)
    requires Kept(s) && s.history != [] && IsKnownRole(role)
    ensures var r := Report(s.history);
            && r.totalWeeks == s.currentWeek == |s.history|
            && |r.nodeAnalytics| == 4 && PartIs(r.nodeAnalytics[Place(role)], s.history, role)
            && AnalyticsFrom(r.nodeAnalytics, role, 0) == Some(r.nodeAnalytics[Place(role)])
  {
    hide Kept, Report, RoleReport, RoleReports, AllNodes, PartIs, AnalyticsFrom, Place;
    KeptHistory(s);
    ReportUnfolds(s.history);
    PartOf(s.history, role);
    PartListed(AllNodes(s.history), role);
  }

  /** The variance of a role's orders is repeated by role, and the bullwhip effect is its ratio
      to the variance of demand, or 0 if demand does not vary. */
  lemma BullwhipIs(s: Session, role: Role)
    requires Kept(s) && s.history != [] && IsKnownRole(role)
    ensures var r := Report(s.history);
            && r.orderVariance.Keys == r.bullwhipEffect.Keys == {Factory, Distributor, Wholesaler, Retailer}
            && |r.nodeAnalytics| == 4 && r.orderVariance[role] == r.nodeAnalytics[Place(role)].orderVariance
            && r.demandVariance >= 0.0
            && (r.demandVariance > 0.0 ==> r.bullwhipEffect[role] * r.demandVariance == r.orderVariance[role])
            && (r.demandVariance == 0.0 ==> r.bullwhipEffect[role] == 0.0)
  {
    hide Kept, Report, RoleReport, RoleReports, RoleVariances, RoleBullwhips, Bullwhip, AllNodes, DemandSeries,
      Variance, Place;
    var nodes, demandVariance := AllNodes(s.history), Variance(DemandSeries(s.history));
    ReportUnfolds(s.history);
    PartListed(nodes, role);
    PartsListed(nodes, demandVariance, role);
    BullwhipIsRatio(RoleReport(nodes, role).orderVariance, demandVariance);
    VarianceZeroIff(DemandSeries(s.history));
  }

  lemma PartListed(nodes: seq<NodeState>, role: Role)
    requires IsKnownRole(role)
    ensures |RoleReports(nodes, 4)| == 4 && RoleReports(nodes, 4)[Place(role)] == RoleReport(nodes, role)
    ensures AnalyticsFrom(RoleReports(nodes, 4), role, 0) == Some(RoleReport(nodes, role))
  {
    hide RoleReports, RoleReport, AnalyticsFrom;
    ReportsListed(nodes);
    ReportFound(nodes, role);
  }

  lemma KeptHistory(s: Session)
    requires Kept(s)
    ensures Regular(s.history) && |s.history| == s.currentWeek
  {
    hide RoleKept;
  }

  lemma ReportUnfolds(history: seq<WeekState>)
    requires history != []
    ensures var r, nodes := Report(history), AllNodes(history);
            && r.totalWeeks == |history| && r.demandVariance == Variance(DemandSeries(history))
            && r.nodeAnalytics == RoleReports(nodes, 4) && r.orderVariance == RoleVariances(nodes, 4)
            && r.bullwhipEffect == RoleBullwhips(nodes, r.demandVariance, 4)
  {
    hide RoleReports, RoleVariances, RoleBullwhips, AllNodes, DemandSeries, Variance, WeekCosts, Sum;
  }

  /** The variance of demand, by the same formula, is that of the orders the retailer got. */
  lemma DemandVarianceIs(s: Session)
    requires Kept(s) && s.history != []
    ensures var n, demand := |s.history|, Column(s.history, Retailer, Requested);
            (n * n) as real * Report(s.history).demandVariance ==
            (n * Sum(Squares(demand)) - Sum(demand) * Sum(demand)) as real
  {
    hide RoleKept, AllNodes, Series, Column, Variance, Sum, Squares, RoleReports, RoleVariances,
      RoleBullwhips, WeekCosts;
    assert Regular(s.history);
    SeriesIsColumn(s.history, Retailer, Requested);
    ColumnLength(s.history, Retailer, Requested);
    VarianceFormula(Column(s.history, Retailer, Requested));
  }

  /** The total is that of the weeks' totals; before the first week there is nothing to report. */
  lemma ReportTotals(history: seq<WeekState>)
    ensures Report(history).totalCost == Sum(WeekCosts(history)) && |WeekCosts(history)| == |history|
    ensures forall i :: 0 <= i < |history| ==> WeekCosts(history)[i] == history[i].totalCost
    ensures history == [] ==> Report(history) == SessionAnalytics(0, 0, 0.0, [], map[], map[])
  {
    if history == [] {
      EmptySum(WeekCosts(history));
    }
  }
}
