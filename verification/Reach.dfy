/** The bounds of TwoRuns on how fast a changed order spreads are exact: where nothing on the
    way absorbs the change it shows in the very first week it can, and for any delays there
    are games in which that happens at every role. */
module Reach {
  import opened Common
  import opened Sums
  import opened Scenarios
  import opened Chain
  import opened ChainLaws
  import opened RunLaws
  import opened TwoRuns

  /** Week t's arrivals at a role, read off the closed form. */
  lemma ClosedArrivals(s: Session, role: Role, t: nat)
    requires Kept(s) && IsKnownRole(role) && 1 <= t <= s.currentWeek
    ensures |s.history| == s.currentWeek
    ensures var sc, book, node := s.scenario, BookOf(s.history), NodeByRole(s.history[t - 1].nodes, role);
            && node.incomingGoods == CumGoods(sc, book, role, t) - CumGoods(sc, book, role, t - 1)
            && node.incomingOrder == CumOrders(sc, book, role, t) - CumOrders(sc, book, role, t - 1)
            && node.inventory == MaxInt(NetPosition(sc, book, role, t), 0)
            && node.backlog == MaxInt(-NetPosition(sc, book, role, t), 0)
  {
    hide RoleKept, CumGoods, CumOrders, CumShipped, NetPosition, NodeByRole;
    ClosedForm(s, role, t);
  }

  lemma FirstDifference(a: seq<int>, b: seq<int>, k: nat)
    requires 1 <= k <= |a| == |b| && a[k - 1] != b[k - 1]
    requires forall i :: 0 <= i < k - 1 ==> a[i] == b[i]
    ensures SumFirst(a, k) != SumFirst(b, k)
  {
    SameSums(a, b, k - 1);
  }

  // ---------- Factory orders ----------

  /** The change of the factory's orders in week k, everything else being equal before. */
  ghost predicate FactoryChanged(sc: Scenario, a: Book, b: Book, k: nat) {
    && ValidDelays(sc) && EqualLengths(a, b) && SameBefore(a, b, Factory, k)
    && SameThroughout(a, b, Distributor) && SameThroughout(a, b, Wholesaler) && SameThroughout(a, b, Retailer)
    && 1 <= k <= |a.factory| && k <= |b.factory| && a.factory[k - 1] != b.factory[k - 1]
  }

  /** Every stage above the role has sold out when the change reaches it. */
  ghost predicate SoldOutAbove(sc: Scenario, book: Book, role: Role, k: int) {
    forall r :: IsKnownRole(r) && Rank(r) < Rank(role) ==> NetPosition(sc, book, r, FactoryReach(sc, r, k)) <= 0
  }

  lemma ReachOfSupplier(sc: Scenario, role: Role, k: int)
    requires IsKnownRole(role) && !role.Factory?
    ensures FactoryReach(sc, role, k) - sc.shippingDelay == FactoryReach(sc, Supplier(role), k)
  {
    assert Rank(role) * sc.shippingDelay == Rank(Supplier(role)) * sc.shippingDelay + sc.shippingDelay;
  }

  lemma ReachPositive(sc: Scenario, role: Role, k: nat)
    requires ValidDelays(sc)
    ensures FactoryReach(sc, role, k) >= k + sc.productionDelay
  {
    assert Rank(role) * sc.shippingDelay >= 0;
  }

  lemma {:induction false} FactoryChangeShows(sc: Scenario, a: Book, b: Book, k: nat, role: Role)
    requires IsKnownRole(role) && FactoryChanged(sc, a, b, k)
    requires SoldOutAbove(sc, a, role, k) && SoldOutAbove(sc, b, role, k)
    ensures var t := FactoryReach(sc, role, k); CumGoods(sc, a, role, t) != CumGoods(sc, b, role, t)
    decreases Rank(role)
  {
    hide FactoryReach, CumOrders, SumFirst;
    var t := FactoryReach(sc, role, k);
    if role.Factory? {
      assert t - sc.productionDelay == k by { FactoryReaches(sc, k); }
      FirstDifference(a.factory, b.factory, k);
    } else {
      var above := Supplier(role);
      ReachOfSupplier(sc, role, k);
      ReachPositive(sc, above, k);
      FactoryChangeShows(sc, a, b, k, above);
      assert NetPosition(sc, a, above, FactoryReach(sc, above, k)) <= 0;
      assert NetPosition(sc, b, above, FactoryReach(sc, above, k)) <= 0;
    }
  }

  lemma FactoryReaches(sc: Scenario, k: int)
    ensures FactoryReach(sc, Factory, k) - sc.productionDelay == k
  {}

  /** The role held nothing at the end of week t. */
  ghost predicate SoldOut(s: Session, role: Role, t: int) {
    1 <= t <= |s.history| ==> NodeByRole(s.history[t - 1].nodes, role).inventory == 0
  }

  /** The games were both played up to week t, and the role received different amounts then. */
  ghost predicate GoodsDiffer(s: Session, r: Session, role: Role, t: int) {
    && 1 <= t <= |s.history| && t <= |r.history|
    && NodeByRole(s.history[t - 1].nodes, role).incomingGoods != NodeByRole(r.history[t - 1].nodes, role).incomingGoods
  }

  ghost predicate OrdersDiffer(s: Session, r: Session, role: Role, t: int) {
    && 1 <= t <= |s.history| && t <= |r.history|
    && NodeByRole(s.history[t - 1].nodes, role).incomingOrder != NodeByRole(r.history[t - 1].nodes, role).incomingOrder
  }

  /** In two games that differ in the factory's order of week k, the change shows at a role in
      exactly the first week it can, if every stage above it has sold out by the end of the
      week in which the change arrives there. */
  lemma FactoryReachIsExact(s: Session, r: Session, k: nat, role: Role)
    requires Comparable(s, r) && IsKnownRole(role)
    requires FactoryChanged(s.scenario, BookOf(s.history), BookOf(r.history), k)
    requires FactoryReach(s.scenario, role, k) <= s.currentWeek
    requires forall above :: IsKnownRole(above) && Rank(above) < Rank(role) ==>
               SoldOut(s, above, FactoryReach(s.scenario, above, k)) &&
               SoldOut(r, above, FactoryReach(s.scenario, above, k))
    ensures GoodsDiffer(s, r, role, FactoryReach(s.scenario, role, k))
  {
    hide Kept, NodeByRole, CumGoods, CumOrders, CumShipped, NetPosition, FactoryReach;
    var sc, a, b := s.scenario, BookOf(s.history), BookOf(r.history);
    BookLengths(s);
    BookLengths(r);
    forall above | IsKnownRole(above) && Rank(above) < Rank(role)
      ensures NetPosition(sc, a, above, FactoryReach(sc, above, k)) <= 0
      ensures NetPosition(sc, b, above, FactoryReach(sc, above, k)) <= 0
    {
      ReachPositive(sc, above, k);
      ReachGrows(sc, above, role, k);
      ClosedArrivals(s, above, FactoryReach(sc, above, k));
      ClosedArrivals(r, above, FactoryReach(sc, above, k));
    }
    ChangeArrives(s, r, k, role);
  }

  lemma ChangeArrives(s: Session, r: Session, k: nat, role: Role)
    requires Comparable(s, r) && IsKnownRole(role)
    requires FactoryChanged(s.scenario, BookOf(s.history), BookOf(r.history), k)
    requires FactoryReach(s.scenario, role, k) <= s.currentWeek
    requires SoldOutAbove(s.scenario, BookOf(s.history), role, k)
    requires SoldOutAbove(s.scenario, BookOf(r.history), role, k)
    ensures GoodsDiffer(s, r, role, FactoryReach(s.scenario, role, k))
  {
    hide Kept, NodeByRole, CumGoods, CumOrders, CumShipped, NetPosition, FactoryReach;
    var sc, a, b := s.scenario, BookOf(s.history), BookOf(r.history);
    var t := FactoryReach(sc, role, k);
    ReachPositive(sc, role, k);
    FactoryChangeShows(sc, a, b, k, role);
    FactoryChangeGoods(sc, a, b, k, role, t - 1);
    ClosedArrivals(s, role, t);
    ClosedArrivals(r, role, t);
  }

  lemma ReachGrows(sc: Scenario, above: Role, role: Role, k: int)
    requires ValidDelays(sc) && Rank(above) <= Rank(role)
    ensures FactoryReach(sc, above, k) <= FactoryReach(sc, role, k)
  {
    assert (Rank(role) - Rank(above)) * sc.shippingDelay >= 0;
  }

  // ---------- Retailer orders ----------

  ghost predicate RetailerChanged(sc: Scenario, a: Book, b: Book, k: nat) {
    && ValidDelays(sc) && EqualLengths(a, b) && SameBefore(a, b, Retailer, k)
    && SameThroughout(a, b, Factory) && SameThroughout(a, b, Distributor) && SameThroughout(a, b, Wholesaler)
    && 1 <= k <= |a.retailer| && k <= |b.retailer| && a.retailer[k - 1] != b.retailer[k - 1]
  }

  /** The change shows in the wholesaler's incoming order, and if the wholesaler then owes
      nothing, also in its shipment and so in the retailer's goods. */
  lemma RetailerChangeShows(sc: Scenario, a: Book, b: Book, k: nat)
    requires RetailerChanged(sc, a, b, k)
    ensures var t := k + sc.orderDelay;
            && CumOrders(sc, a, Wholesaler, t) != CumOrders(sc, b, Wholesaler, t)
            && (NetPosition(sc, a, Wholesaler, t) >= 0 && NetPosition(sc, b, Wholesaler, t) >= 0 ==>
                  CumGoods(sc, a, Retailer, t + sc.shippingDelay) != CumGoods(sc, b, Retailer, t + sc.shippingDelay))
  {
    hide SumFirst;
    var t := k + sc.orderDelay;
    assert |a.Of(Retailer)| == |b.Of(Retailer)|;
    FirstDifference(a.retailer, b.retailer, k);
    assert t - sc.orderDelay == k;
    assert t + sc.shippingDelay - sc.shippingDelay == t;
  }

  /** The role owed nothing at the end of week t. */
  ghost predicate OwesNothing(s: Session, role: Role, t: int) {
    1 <= t <= |s.history| ==> NodeByRole(s.history[t - 1].nodes, role).backlog == 0
  }

  /** In two games that differ in the retailer's order of week k, the change shows at the
      wholesaler after exactly the order delay, and at the retailer exactly one shipping delay
      later if the wholesaler then owes nothing. */
  lemma RetailerReachIsExact(s: Session, r: Session, k: nat)
    requires Comparable(s, r) && RetailerChanged(s.scenario, BookOf(s.history), BookOf(r.history), k)
    ensures var t, u := k + s.scenario.orderDelay, k + s.scenario.orderDelay + s.scenario.shippingDelay;
            && (t <= s.currentWeek ==> OrdersDiffer(s, r, Wholesaler, t))
            && (u <= s.currentWeek && OwesNothing(s, Wholesaler, t) && OwesNothing(r, Wholesaler, t) ==>
                  GoodsDiffer(s, r, Retailer, u))
  {
    hide Kept, NodeByRole, CumGoods, CumOrders, CumShipped, NetPosition;
    var sc, a, b := s.scenario, BookOf(s.history), BookOf(r.history);
    var t := k + sc.orderDelay;
    var u := t + sc.shippingDelay;
    BookLengths(s);
    BookLengths(r);
    RetailerChangeShows(sc, a, b, k);
    RetailerChangeTotals(sc, a, b, k, Wholesaler, t - 1);
    RetailerChangeTotals(sc, a, b, k, Retailer, u - 1);
    if t <= s.currentWeek {
      ClosedArrivals(s, Wholesaler, t);
      ClosedArrivals(r, Wholesaler, t);
    }
    if u <= s.currentWeek {
      ClosedArrivals(s, Retailer, u);
      ClosedArrivals(r, Retailer, u);
    }
  }

  // ---------- Games in which the bounds are met ----------

  /** A game without demand: any delays, empty pipelines, one first stock and one first debt. */
  function QuietScenario(shipping: nat, order: nat, inventory: nat, backlog: nat): Scenario {
    Scenario("quiet", inventory, backlog, seq(shipping, _ => 0), seq(order, _ => 0), [0], shipping, order, shipping,
             1, 1, Fixed, 0, 0, 0)
  }

  /** Nobody orders anything, but for one unit ordered by one role in week k. */
  function QuietWeek(changed: Role, ordered: bool): Decisions {
    map[Factory := 0, Distributor := 0, Wholesaler := 0, Retailer := 0][changed := if ordered then 1 else 0]
  }

  function QuietWeeks(n: nat, changed: Role, k: int): seq<Decisions> {
    seq(n, i => QuietWeek(changed, i == k - 1))
  }

  lemma QuietWeekAccepted(changed: Role, ordered: bool)
    ensures Acceptable(QuietWeek(changed, ordered))
    ensures forall role :: IsKnownRole(role) ==>
              QuietWeek(changed, ordered)[role] == if role == changed && ordered then 1 else 0
    ensures IsKnownRole(changed) ==> forall role :: role in QuietWeek(changed, ordered) ==> IsKnownRole(role)
  {}

  lemma QuietRun(start: Session, n: nat, changed: Role, k: int)
    requires start.maxWeeks >= n
    ensures Playable(start, QuietWeeks(n, changed, k))
  {
    forall i | 0 <= i < n ensures Acceptable(QuietWeeks(n, changed, k)[i]) {
      QuietWeekAccepted(changed, i == k - 1);
    }
  }

  lemma QuietBeginning(shipping: nat, order: nat, inventory: nat, backlog: nat, n: nat)
    requires shipping > 0 && order > 0 && n > 0
    ensures var start := FreshSession("session", "room", QuietScenario(shipping, order, inventory, backlog), n);
            && IsFresh(start) && start.maxWeeks == n
            && start.scenario == QuietScenario(shipping, order, inventory, backlog)
            && start.scenario.shippingDelay == shipping && start.scenario.orderDelay == order
  {}

  lemma QuietDiffer(n: nat, changed: Role, k: int)
    requires IsKnownRole(changed)
    ensures DifferFrom(QuietWeeks(n, changed, 0), QuietWeeks(n, changed, k), changed, k)
  {
    hide QuietWeek;
    QuietWeekAccepted(changed, false);
    QuietWeekAccepted(changed, true);
  }

  lemma QuietBook(start: Session, n: nat, changed: Role, k: int, role: Role)
    requires IsFresh(start) && start.maxWeeks >= n > 0 && IsKnownRole(role)
    ensures Playable(start, QuietWeeks(n, changed, k))
    ensures var orders := PlayedBook(start, QuietWeeks(n, changed, k)).Of(role);
            |orders| == n && forall i :: 0 <= i < n ==> orders[i] == if role == changed && i == k - 1 then 1 else 0
  {
    hide IsFresh, Playable, PlayedBook, QuietWeek;
    QuietRun(start, n, changed, k);
    forall i | 0 <= i < n
      ensures |PlayedBook(start, QuietWeeks(n, changed, k)).Of(role)| == n
      ensures PlayedBook(start, QuietWeeks(n, changed, k)).Of(role)[i] == if role == changed && i == k - 1 then 1 else 0
    {
      PlayedOrder(start, QuietWeeks(n, changed, k), role, i);
      QuietWeekAccepted(changed, i == k - 1);
    }
    PlayedOrder(start, QuietWeeks(n, changed, k), role, 0);
  }

  lemma {:induction false} PulseSum(values: seq<int>, k: int, n: int)
    requires forall i :: 0 <= i < |values| ==> values[i] == if i == k - 1 then 1 else 0
    ensures 0 <= SumFirst(values, n) <= 1
    ensures n < k || k <= 0 ==> SumFirst(values, n) == 0
    decreases n
  {
    if n > 0 {
      PulseSum(values, k, n - 1);
    }
  }

  /** Without first stock or goods on the way, no more than the production gets anywhere. */
  lemma {:induction false} ScarceGoods(sc: Scenario, book: Book, role: Role, n: int)
    requires IsKnownRole(role) && sc.initialInventory == 0
    requires forall i :: 0 <= i < |sc.initialPipelineGoods| ==> sc.initialPipelineGoods[i] == 0
    requires forall i :: SumFirst(book.factory, i) <= 1
    ensures CumGoods(sc, book, role, n) <= 1
    decreases Rank(role)
  {
    hide CumOrders, SumFirst;
    PulseSum(sc.initialPipelineGoods, 0, n);
    if !role.Factory? {
      ScarceGoods(sc, book, Supplier(role), n - sc.shippingDelay);
    }
  }

  lemma QuietOrders(shipping: nat, order: nat, inventory: nat, backlog: nat, book: Book, role: Role, n: int, k: int)
    requires IsKnownRole(role) && !role.Retailer?
    requires var orders := book.Of(Customer(role));
             forall i :: 0 <= i < |orders| ==> orders[i] == if i == k - 1 then 1 else 0
    ensures 0 <= CumOrders(QuietScenario(shipping, order, inventory, backlog), book, role, n) <= 1
  {
    hide SumFirst;
    PulseSum(seq(order, _ => 0), 0, n);
    PulseSum(book.Of(Customer(role)), k, n - order);
  }

  lemma QuietSoldOut(start: Session, shipping: nat, order: nat, n: nat, k: int, role: Role, t: int)
    requires IsFresh(start) && start.maxWeeks >= n > 0 && start.scenario == QuietScenario(shipping, order, 0, 1)
    requires IsKnownRole(role) && !role.Retailer?
    ensures Playable(start, QuietWeeks(n, Factory, k))
    ensures NetPosition(start.scenario, PlayedBook(start, QuietWeeks(n, Factory, k)), role, t) <= 0
  {
    hide IsFresh, Playable, PlayedBook, QuietWeeks, CumGoods, CumOrders, SumFirst;
    QuietRun(start, n, Factory, k);
    var book := PlayedBook(start, QuietWeeks(n, Factory, k));
    QuietBook(start, n, Factory, k, Factory);
    QuietBook(start, n, Factory, k, Customer(role));
    forall i ensures SumFirst(book.factory, i) <= 1 {
      PulseSum(book.Of(Factory), k, i);
    }
    ScarceGoods(start.scenario, book, role, t);
    QuietOrders(shipping, order, 0, 1, book, role, t, 0);
  }

  /** Whatever the delays, the role and the week of the change: there are two runs from one
      start, differing in one factory order of that week, in which it shows at the role in the
      first week it can. */
  lemma FactoryBoundMet(shipping: nat, order: nat, k: nat, role: Role)
    returns (start: Session, a: seq<Decisions>, b: seq<Decisions>)
    requires shipping > 0 && order > 0 && k > 0 && IsKnownRole(role)
    ensures IsFresh(start) && start.scenario.shippingDelay == shipping && start.scenario.orderDelay == order
    ensures Playable(start, a) && Playable(start, b) && DifferFrom(a, b, Factory, k)
    ensures GoodsDiffer(Play(start, a), Play(start, b), role, FactoryReach(start.scenario, role, k))
  {
    hide IsFresh, Playable, Play, Kept, QuietWeeks, FactoryReach, NetPosition, GoodsDiffer;
    var sc := QuietScenario(shipping, order, 0, 1);
    ReachPositive(sc, role, k);
    var n := FactoryReach(sc, role, k);
    start := FreshSession("session", "room", sc, n);
    a, b := QuietWeeks(n, Factory, 0), QuietWeeks(n, Factory, k);
    QuietBeginning(shipping, order, 0, 1, n);
    QuietDiffer(n, Factory, k);
    QuietChange(start, n, k);
    forall above | IsKnownRole(above) && Rank(above) < Rank(role)
      ensures NetPosition(sc, PlayedBook(start, a), above, FactoryReach(sc, above, k)) <= 0
      ensures NetPosition(sc, PlayedBook(start, b), above, FactoryReach(sc, above, k)) <= 0
    {
      QuietSoldOut(start, shipping, order, n, 0, above, FactoryReach(sc, above, k));
      QuietSoldOut(start, shipping, order, n, k, above, FactoryReach(sc, above, k));
    }
    ComparablePlayed(start, a, b);
    ChangeArrives(Play(start, a), Play(start, b), k, role);
  }

  lemma QuietChange(start: Session, n: nat, k: nat)
    requires IsFresh(start) && start.maxWeeks >= n >= k > 0
    ensures Playable(start, QuietWeeks(n, Factory, 0)) && Playable(start, QuietWeeks(n, Factory, k))
    ensures |QuietWeeks(n, Factory, 0)| == |QuietWeeks(n, Factory, k)| == n
    ensures FactoryChanged(start.scenario, PlayedBook(start, QuietWeeks(n, Factory, 0)),
                           PlayedBook(start, QuietWeeks(n, Factory, k)), k)
  {
    hide Playable, PlayedBook;
    QuietBooks(start, n, k, Factory);
  }

  /** With and without the one order the four books are the same but for that order. */
  lemma QuietBooks(start: Session, n: nat, k: int, changed: Role)
    requires IsFresh(start) && start.maxWeeks >= n > 0 && IsKnownRole(changed)
    ensures Playable(start, QuietWeeks(n, changed, 0)) && Playable(start, QuietWeeks(n, changed, k))
    ensures forall role :: IsKnownRole(role) ==>
              var a := PlayedBook(start, QuietWeeks(n, changed, 0)).Of(role);
              var b := PlayedBook(start, QuietWeeks(n, changed, k)).Of(role);
              && |a| == |b| == n && (role != changed ==> a == b)
              && forall i :: 0 <= i < n ==> a[i] == 0 && b[i] == if role == changed && i == k - 1 then 1 else 0
  {
    hide IsFresh, Playable, PlayedBook, QuietWeeks;
    QuietRun(start, n, changed, 0);
    QuietRun(start, n, changed, k);
    forall role | IsKnownRole(role)
      ensures var a := PlayedBook(start, QuietWeeks(n, changed, 0)).Of(role);
              var b := PlayedBook(start, QuietWeeks(n, changed, k)).Of(role);
              && |a| == |b| == n && (role != changed ==> a == b)
              && forall i :: 0 <= i < n ==> a[i] == 0 && b[i] == if role == changed && i == k - 1 then 1 else 0
    {
      QuietBook(start, n, changed, 0, role);
      QuietBook(start, n, changed, k, role);
    }
  }

  /** Nobody ever receives a negative amount if nobody is asked for one. */
  lemma {:induction false} GoodsNotNegative(sc: Scenario, book: Book, role: Role, n: int)
    requires IsKnownRole(role) && sc.initialInventory >= 0 && sc.initialBacklog >= 0
    requires forall i :: SumFirst(sc.initialPipelineGoods, i) >= 0 && SumFirst(book.factory, i) >= 0
    requires forall r, i :: IsKnownRole(r) && !r.Retailer? ==> CumOrders(sc, book, r, i) >= 0
    ensures CumGoods(sc, book, role, n) >= 0
    decreases Rank(role)
  {
    hide CumOrders, SumFirst;
    if !role.Factory? {
      GoodsNotNegative(sc, book, Supplier(role), n - sc.shippingDelay);
    }
  }

  lemma QuietInStock(start: Session, shipping: nat, order: nat, n: nat, k: int, t: int)
    requires IsFresh(start) && start.maxWeeks >= n > 0 && start.scenario == QuietScenario(shipping, order, 1, 0)
    ensures Playable(start, QuietWeeks(n, Retailer, k))
    ensures NetPosition(start.scenario, PlayedBook(start, QuietWeeks(n, Retailer, k)), Wholesaler, t) >= 0
  {
    hide IsFresh, Playable, PlayedBook, QuietWeeks, CumGoods, CumOrders, SumFirst;
    QuietRun(start, n, Retailer, k);
    var sc, book := start.scenario, PlayedBook(start, QuietWeeks(n, Retailer, k));
    forall i ensures SumFirst(sc.initialPipelineGoods, i) >= 0 && SumFirst(book.factory, i) >= 0 {
      QuietBook(start, n, Retailer, k, Factory);
      PulseSum(sc.initialPipelineGoods, 0, i);
      PulseSum(book.Of(Factory), 0, i);
    }
    forall r, i | IsKnownRole(r) && !r.Retailer? ensures 0 <= CumOrders(sc, book, r, i) <= 1 {
      QuietBook(start, n, Retailer, k, Customer(r));
      QuietOrders(shipping, order, 1, 0, book, r, i, if r.Wholesaler? then k else 0);
    }
    GoodsNotNegative(sc, book, Wholesaler, t);
    assert 0 <= CumOrders(sc, book, Wholesaler, t) <= 1;
  }

  lemma InStockOwesNothing(s: Session, role: Role, t: nat)
    requires Kept(s) && IsKnownRole(role) && 1 <= t <= s.currentWeek
    requires NetPosition(s.scenario, BookOf(s.history), role, t) >= 0
    ensures OwesNothing(s, role, t)
  {
    hide Kept, NetPosition, NodeByRole;
    ClosedArrivals(s, role, t);
  }

  /** Likewise for the retailer's orders, at the wholesaler and at the retailer itself. */
  lemma RetailerBoundMet(shipping: nat, order: nat, k: nat)
    returns (start: Session, a: seq<Decisions>, b: seq<Decisions>)
    requires shipping > 0 && order > 0 && k > 0
    ensures IsFresh(start) && start.scenario.shippingDelay == shipping && start.scenario.orderDelay == order
    ensures Playable(start, a) && Playable(start, b) && DifferFrom(a, b, Retailer, k)
    ensures OrdersDiffer(Play(start, a), Play(start, b), Wholesaler, k + order)
    ensures GoodsDiffer(Play(start, a), Play(start, b), Retailer, k + order + shipping)
  {
    hide IsFresh, Playable, Play, Kept, QuietWeeks, NetPosition, GoodsDiffer, OrdersDiffer, NodeByRole,
      OwesNothing, FreshSession, QuietScenario, DifferFrom, RetailerChanged;
    var sc, n := QuietScenario(shipping, order, 1, 0), k + order + shipping;
    start := FreshSession("session", "room", sc, n);
    a, b := QuietWeeks(n, Retailer, 0), QuietWeeks(n, Retailer, k);
    QuietBeginning(shipping, order, 1, 0, n);
    QuietDiffer(n, Retailer, k);
    QuietRetailerChange(start, n, k);
    ComparablePlayed(start, a, b);
    QuietInStock(start, shipping, order, n, 0, k + order);
    QuietInStock(start, shipping, order, n, k, k + order);
    InStockOwesNothing(Play(start, a), Wholesaler, k + order);
    InStockOwesNothing(Play(start, b), Wholesaler, k + order);
    RetailerReachIsExact(Play(start, a), Play(start, b), k);
  }

  lemma QuietRetailerChange(start: Session, n: nat, k: nat)
    requires IsFresh(start) && start.maxWeeks >= n >= k > 0
    ensures Playable(start, QuietWeeks(n, Retailer, 0)) && Playable(start, QuietWeeks(n, Retailer, k))
    ensures |QuietWeeks(n, Retailer, 0)| == |QuietWeeks(n, Retailer, k)| == n
    ensures RetailerChanged(start.scenario, PlayedBook(start, QuietWeeks(n, Retailer, 0)),
                            PlayedBook(start, QuietWeeks(n, Retailer, k)), k)
  {
    hide Playable, PlayedBook;
    QuietBooks(start, n, k, Retailer);
  }
}
