/** Comparing two runs of the same scenario: how fast a changed order can spread, and
    which way it pushes. The runs are any two sessions that keep the chain's invariant. */
module TwoRuns {
  import opened Common
  import opened Sums
  import opened Scenarios
  import opened Chain
  import opened ChainLaws
  import opened RunLaws

  /** The runs placed the same orders for this role before week k. */
  ghost predicate SameBefore(a: Book, b: Book, role: Role, k: int) {
    forall i :: 0 <= i < |a.Of(role)| && i < |b.Of(role)| && i < k - 1 ==> a.Of(role)[i] == b.Of(role)[i]
  }

  ghost predicate SameThroughout(a: Book, b: Book, role: Role) {
    a.Of(role) == b.Of(role)
  }

  ghost predicate EqualLengths(a: Book, b: Book) {
    forall role :: IsKnownRole(role) ==> |a.Of(role)| == |b.Of(role)|
  }

  ghost predicate ValidDelays(sc: Scenario) {
    sc.productionDelay == sc.shippingDelay > 0 && sc.orderDelay > 0
  }

  /** Equal but for the order the player places, which is an input. */
  ghost predicate SameNode(m: NodeState, n: NodeState) {
    m.(placedOrder := n.placedOrder) == n
  }

  // ---------- Causality ----------

  /** The first week in which a change of factory orders from week k on can reach a role. */
  ghost function FactoryReach(sc: Scenario, role: Role, k: int): int {
    k + sc.productionDelay + Rank(role) * sc.shippingDelay
  }

  lemma {:induction false} FactoryChangeGoods(sc: Scenario, a: Book, b: Book, k: int, role: Role, t: int)
    requires IsKnownRole(role) && ValidDelays(sc) && EqualLengths(a, b)
    requires SameBefore(a, b, Factory, k)
    requires SameThroughout(a, b, Distributor) && SameThroughout(a, b, Wholesaler) && SameThroughout(a, b, Retailer)
    requires t < FactoryReach(sc, role, k)
    ensures CumGoods(sc, a, role, t) == CumGoods(sc, b, role, t)
    ensures CumOrders(sc, a, role, t) == CumOrders(sc, b, role, t)
    ensures CumShipped(sc, a, role, t) == CumShipped(sc, b, role, t)
    decreases Rank(role)
  {
    if role.Factory? {
      assert |a.Of(Factory)| == |b.Of(Factory)|;
      SameSums(a.factory, b.factory, t - sc.productionDelay);
    } else {
      assert Rank(role) * sc.shippingDelay == Rank(Supplier(role)) * sc.shippingDelay + sc.shippingDelay;
      FactoryChangeGoods(sc, a, b, k, Supplier(role), t - sc.shippingDelay);
    }
  }

  lemma {:induction false} SameSums(a: seq<int>, b: seq<int>, n: int)
    requires |a| == |b| && forall i :: 0 <= i < |a| && i < n ==> a[i] == b[i]
    ensures SumFirst(a, n) == SumFirst(b, n)
    decreases n
  {
    if n > 0 {
      SameSums(a, b, n - 1);
    }
  }

  /** Nodes with the same closed totals are the same node, order placed aside. */
  lemma SameTotalsSameNode(id: string, sc: Scenario, a: Book, b: Book, role: Role, t: int)
    requires IsKnownRole(role) && 1 <= t <= |a.Of(role)| && t <= |b.Of(role)|
    requires forall n :: t - 1 <= n <= t ==>
               && CumGoods(sc, a, role, n) == CumGoods(sc, b, role, n)
               && CumOrders(sc, a, role, n) == CumOrders(sc, b, role, n)
               && CumShipped(sc, a, role, n) == CumShipped(sc, b, role, n)
    ensures SameNode(ClosedNode(id, sc, a, role, t), ClosedNode(id, sc, b, role, t))
  {
    hide CumGoods, CumOrders, CumShipped;
  }

  /** Two sessions of the same game after the same number of weeks. */
  ghost predicate Comparable(s: Session, r: Session) {
    Kept(s) && Kept(r) && s.id == r.id && s.scenario == r.scenario && s.currentWeek == r.currentWeek
  }

  /** A factory order of week k or later cannot be seen at a role before production and one
      shipping delay per stage have passed. */
  lemma FactoryCausality(s: Session, r: Session, k: int, role: Role, t: nat)
    requires Comparable(s, r) && IsKnownRole(role) && 1 <= t <= s.currentWeek
    requires var a, b := BookOf(s.history), BookOf(r.history);
             && SameBefore(a, b, Factory, k)
             && SameThroughout(a, b, Distributor) && SameThroughout(a, b, Wholesaler) && SameThroughout(a, b, Retailer)
    requires t < FactoryReach(s.scenario, role, k)
    ensures SameNode(NodeByRole(s.history[t - 1].nodes, role), NodeByRole(r.history[t - 1].nodes, role))
  {
    hide RoleKept, HistoryKept, NodeByRole, Column, CumGoods, CumOrders, CumShipped, NetPosition, ClosedNode;
    var a, b := BookOf(s.history), BookOf(r.history);
    BookLengths(s);
    BookLengths(r);
    ClosedForm(s, role, t);
    ClosedForm(r, role, t);
    FactoryChangeGoods(s.scenario, a, b, k, role, t);
    FactoryChangeGoods(s.scenario, a, b, k, role, t - 1);
    SameTotalsSameNode(s.id, s.scenario, a, b, role, t);
  }

  lemma BookLengths(s: Session)
    requires Kept(s)
    ensures ValidDelays(s.scenario) && |s.history| == s.currentWeek
    ensures forall role :: IsKnownRole(role) ==> |BookOf(s.history).Of(role)| == |s.history|
  {}

  /** The bound is reached: a changed factory order is seen at the factory exactly one
      production delay later. */
  lemma FactoryReachIsTight(s: Session, r: Session, k: nat)
    requires Comparable(s, r) && 1 <= k && k + s.scenario.productionDelay <= s.currentWeek
    requires |s.history| == s.currentWeek && |r.history| == r.currentWeek
    requires s.scenario.productionDelay > 0
    requires NodeByRole(s.history[k - 1].nodes, Factory).placedOrder !=
             NodeByRole(r.history[k - 1].nodes, Factory).placedOrder
    ensures var t := FactoryReach(s.scenario, Factory, k);
            NodeByRole(s.history[t - 1].nodes, Factory).incomingGoods !=
            NodeByRole(r.history[t - 1].nodes, Factory).incomingGoods
  {
    hide RoleKept, NodeByRole;
    GoodsDelayLaw(s, Factory, k + s.scenario.productionDelay);
    GoodsDelayLaw(r, Factory, k + s.scenario.productionDelay);
  }

  /** The first week in which a change of retailer orders from week k on can reach a role;
      the distributor and the factory are never reached. */
  ghost predicate BeforeRetailerReach(sc: Scenario, role: Role, k: int, t: int) {
    match role
    case Wholesaler => t < k + sc.orderDelay
    case Retailer => t < k + sc.orderDelay + sc.shippingDelay
    case _ => true
  }

  lemma {:induction false} RetailerChangeTotals(sc: Scenario, a: Book, b: Book, k: int, role: Role, t: int)
    requires IsKnownRole(role) && ValidDelays(sc) && EqualLengths(a, b)
    requires SameBefore(a, b, Retailer, k)
    requires SameThroughout(a, b, Factory) && SameThroughout(a, b, Distributor) && SameThroughout(a, b, Wholesaler)
    requires BeforeRetailerReach(sc, role, k, t)
    ensures CumGoods(sc, a, role, t) == CumGoods(sc, b, role, t)
    ensures CumOrders(sc, a, role, t) == CumOrders(sc, b, role, t)
    ensures CumShipped(sc, a, role, t) == CumShipped(sc, b, role, t)
    decreases Rank(role)
  {
    hide SumFirst, CumDemand;
    if !role.Factory? {
      RetailerChangeTotals(sc, a, b, k, Supplier(role), t - sc.shippingDelay);
    }
    if role.Wholesaler? {
      assert |a.Of(Retailer)| == |b.Of(Retailer)|;
      SameSums(a.retailer, b.retailer, t - sc.orderDelay);
    }
  }

  /** A retailer order of week k or later never reaches the distributor or the factory. */
  lemma RetailerCausality(s: Session, r: Session, k: int, role: Role, t: nat)
    requires Comparable(s, r) && IsKnownRole(role) && 1 <= t <= s.currentWeek
    requires var a, b := BookOf(s.history), BookOf(r.history);
             && SameBefore(a, b, Retailer, k)
             && SameThroughout(a, b, Factory) && SameThroughout(a, b, Distributor) && SameThroughout(a, b, Wholesaler)
    requires BeforeRetailerReach(s.scenario, role, k, t)
    ensures SameNode(NodeByRole(s.history[t - 1].nodes, role), NodeByRole(r.history[t - 1].nodes, role))
  {
    hide RoleKept, HistoryKept, NodeByRole, Column, CumGoods, CumOrders, CumShipped, NetPosition, ClosedNode;
    var a, b := BookOf(s.history), BookOf(r.history);
    BookLengths(s);
    BookLengths(r);
    ClosedForm(s, role, t);
    ClosedForm(r, role, t);
    RetailerChangeTotals(s.scenario, a, b, k, role, t);
    RetailerChangeTotals(s.scenario, a, b, k, role, t - 1);
    SameTotalsSameNode(s.id, s.scenario, a, b, role, t);
  }

  // ---------- Monotonicity ----------

  ghost predicate Raised(a: seq<int>, b: seq<int>) {
    |a| == |b| && forall i :: 0 <= i < |a| ==> a[i] <= b[i]
  }

  lemma {:induction false} RaisedTotals(sc: Scenario, a: Book, b: Book, role: Role, t: int)
    requires IsKnownRole(role) && ValidDelays(sc) && Raised(a.factory, b.factory)
    requires SameThroughout(a, b, Distributor) && SameThroughout(a, b, Wholesaler) && SameThroughout(a, b, Retailer)
    ensures CumGoods(sc, a, role, t) <= CumGoods(sc, b, role, t)
    ensures CumOrders(sc, a, role, t) == CumOrders(sc, b, role, t)
    ensures CumShipped(sc, a, role, t) <= CumShipped(sc, b, role, t)
    decreases Rank(role)
  {
    if role.Factory? {
      SumFirstMonotone(a.factory, b.factory, t - sc.productionDelay);
    } else {
      RaisedTotals(sc, a, b, Supplier(role), t - sc.shippingDelay);
    }
  }

  /** More production never lowers anyone's cumulative shipments or stock and never raises
      anyone's backlog. */
  lemma FactoryMonotone(s: Session, r: Session, role: Role, t: nat)
    requires Comparable(s, r) && IsKnownRole(role) && 1 <= t <= s.currentWeek
    requires var a, b := BookOf(s.history), BookOf(r.history);
             && Raised(a.factory, b.factory)
             && SameThroughout(a, b, Distributor) && SameThroughout(a, b, Wholesaler) && SameThroughout(a, b, Retailer)
    ensures Total(s.history, role, Shipped, t) <= Total(r.history, role, Shipped, t)
    ensures var m, n := NodeByRole(s.history[t - 1].nodes, role), NodeByRole(r.history[t - 1].nodes, role);
            m.inventory <= n.inventory && m.backlog >= n.backlog
  {
    hide RoleKept, HistoryKept, NodeByRole, Column, CumGoods, CumOrders, CumShipped;
    ClosedForm(s, role, t);
    ClosedForm(r, role, t);
    BookLengths(s);
    BookLengths(r);
    RaisedTotals(s.scenario, BookOf(s.history), BookOf(r.history), role, t);
  }

  // ---------- Two runs from one start ----------

  /** The decisions agree but for one role's orders from week k on. */
  ghost predicate DifferFrom(a: seq<Decisions>, b: seq<Decisions>, changed: Role, k: int) {
    && |a| == |b|
    && forall i, role :: 0 <= i < |a| && role in a[i] && role in b[i] && (role != changed || i < k - 1) ==>
         a[i][role] == b[i][role]
  }

  ghost function PlayedBook(start: Session, weeks: seq<Decisions>): Book
    requires Playable(start, weeks)
  {
    BookOf(Play(start, weeks).history)
  }

  lemma PlayedOrder(start: Session, weeks: seq<Decisions>, role: Role, i: nat)
    requires IsFresh(start) && Playable(start, weeks) && IsKnownRole(role) && i < |weeks|
    ensures |PlayedBook(start, weeks).Of(role)| == |weeks| && role in weeks[i]
    ensures PlayedBook(start, weeks).Of(role)[i] == weeks[i][role]
  {
    hide IsFresh, NodeByRole, Play, Playable;
    PlayRecordsDecisions(start, weeks, role, i);
  }

  lemma PlayedBooks(start: Session, a: seq<Decisions>, b: seq<Decisions>, changed: Role, k: int, role: Role)
    requires IsFresh(start) && Playable(start, a) && Playable(start, b) && DifferFrom(a, b, changed, k)
    requires a != [] && IsKnownRole(role)
    ensures SameBefore(PlayedBook(start, a), PlayedBook(start, b), role, k)
    ensures role != changed ==> SameThroughout(PlayedBook(start, a), PlayedBook(start, b), role)
  {
    hide IsFresh, Playable, PlayedBook, Acceptable;
    PlayedOrder(start, a, role, 0);
    PlayedOrder(start, b, role, 0);
    forall i | 0 <= i < |a|
      ensures role in a[i] && PlayedBook(start, a).Of(role)[i] == a[i][role]
      ensures role in b[i] && PlayedBook(start, b).Of(role)[i] == b[i][role]
    {
      PlayedOrder(start, a, role, i);
      PlayedOrder(start, b, role, i);
    }
  }

  lemma ComparablePlayed(start: Session, a: seq<Decisions>, b: seq<Decisions>)
    requires IsFresh(start) && Playable(start, a) && Playable(start, b) && |a| == |b|
    ensures Comparable(Play(start, a), Play(start, b))
    ensures Play(start, a).scenario == start.scenario
    ensures |Play(start, a).history| == |Play(start, b).history| == Play(start, a).currentWeek == |a|
  {
    hide RoleKept, Play, IsFresh;
    RunKept(start, a);
    RunKept(start, b);
  }

  /** Two runs whose decisions differ in factory orders from week k on, or in retailer orders
      from week k on, are the same at every role the change cannot have reached. */
  lemma ChangeSpreads(start: Session, a: seq<Decisions>, b: seq<Decisions>, k: int, role: Role, t: nat)
    requires IsFresh(start) && Playable(start, a) && Playable(start, b)
    requires IsKnownRole(role) && |a| == |b| && 1 <= t <= |a|
    requires (DifferFrom(a, b, Factory, k) && t < FactoryReach(start.scenario, role, k)) ||
             (DifferFrom(a, b, Retailer, k) && BeforeRetailerReach(start.scenario, role, k, t))
    ensures |Play(start, a).history| == |Play(start, b).history| == |a|
    ensures SameNode(NodeByRole(Play(start, a).history[t - 1].nodes, role),
                     NodeByRole(Play(start, b).history[t - 1].nodes, role))
  {
    hide Kept, IsFresh, Play, Playable, DifferFrom, NodeByRole, FactoryReach, BeforeRetailerReach;
    ComparablePlayed(start, a, b);
    var changed :=
      if DifferFrom(a, b, Factory, k) && t < FactoryReach(start.scenario, role, k) then Factory else Retailer;
    PlayedBooks(start, a, b, changed, k, Factory);
    PlayedBooks(start, a, b, changed, k, Distributor);
    PlayedBooks(start, a, b, changed, k, Wholesaler);
    PlayedBooks(start, a, b, changed, k, Retailer);
    if changed == Factory {
      FactoryCausality(Play(start, a), Play(start, b), k, role, t);
    } else {
      RetailerCausality(Play(start, a), Play(start, b), k, role, t);
    }
  }

  /** Of two runs from one start, the one that always produces at least as much never ships
      less in total, holds less or owes more, at any role and in any week. */
  lemma MoreProductionHelps(start: Session, a: seq<Decisions>, b: seq<Decisions>, role: Role, t: nat)
    requires IsFresh(start) && Playable(start, a) && Playable(start, b) && DifferFrom(a, b, Factory, 1)
    requires forall i :: 0 <= i < |a| && Factory in a[i] && Factory in b[i] ==> a[i][Factory] <= b[i][Factory]
    requires IsKnownRole(role) && |a| == |b| && 1 <= t <= |a|
    ensures |Play(start, a).history| == |Play(start, b).history| == |a|
    ensures Total(Play(start, a).history, role, Shipped, t) <= Total(Play(start, b).history, role, Shipped, t)
    ensures var m := NodeByRole(Play(start, a).history[t - 1].nodes, role);
            var n := NodeByRole(Play(start, b).history[t - 1].nodes, role);
            m.inventory <= n.inventory && m.backlog >= n.backlog
  {
    hide Kept, IsFresh, Play, Playable, DifferFrom, NodeByRole, Total, Acceptable;
    ComparablePlayed(start, a, b);
    PlayedBooks(start, a, b, Factory, 1, Distributor);
    PlayedBooks(start, a, b, Factory, 1, Wholesaler);
    PlayedBooks(start, a, b, Factory, 1, Retailer);
    PlayedRaised(start, a, b);
    FactoryMonotone(Play(start, a), Play(start, b), role, t);
  }

  lemma PlayedRaised(start: Session, a: seq<Decisions>, b: seq<Decisions>)
    requires IsFresh(start) && Playable(start, a) && Playable(start, b) && |a| == |b| && a != []
    requires forall i :: 0 <= i < |a| && Factory in a[i] && Factory in b[i] ==> a[i][Factory] <= b[i][Factory]
    ensures Raised(PlayedBook(start, a).factory, PlayedBook(start, b).factory)
  {
    hide IsFresh, Playable, PlayedBook, Acceptable;
    forall i | 0 <= i < |a|
      ensures |PlayedBook(start, a).factory| == |PlayedBook(start, b).factory| == |a|
      ensures PlayedBook(start, a).factory[i] <= PlayedBook(start, b).factory[i]
    {
      PlayedOrder(start, a, Factory, i);
      PlayedOrder(start, b, Factory, i);
    }
    PlayedOrder(start, a, Factory, 0);
    PlayedOrder(start, b, Factory, 0);
  }
}
