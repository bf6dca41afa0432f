/** What the variance in the report means: its computing formula, when it is zero, and
    the bound set by the range of the values. */
module VarianceLaws {
  import opened Common
  import opened Sums
  import opened Chain
  import opened ChainLaws
  import opened Analytics

  function Squares(values: seq<int>): seq<int> {
    seq(|values|, i requires 0 <= i < |values| => values[i] * values[i])
  }

  lemma SquareOfDifference(v: real, mean: real)
    ensures Square(v - mean) == v * v - 2.0 * mean * v + mean * mean
  {}

  lemma ExpandStep(mean: real, squares: real, total: real, v: real, k: real)
    ensures (squares - 2.0 * mean * total + k * mean * mean) + (v * v - 2.0 * mean * v + mean * mean) ==
            (squares + v * v) - 2.0 * mean * (total + v) + (k + 1.0) * mean * mean
  {
    assert 2.0 * mean * (total + v) == 2.0 * mean * total + 2.0 * mean * v;
    assert (k + 1.0) * mean * mean == k * mean * mean + mean * mean;
  }

  ghost function Expansion(mean: real, squares: real, total: real, k: real): real {
    squares - 2.0 * mean * total + k * mean * mean
  }

  lemma ExpansionStep(mean: real, squares: real, total: real, v: real, k: real)
    ensures Expansion(mean, squares, total, k) + Square(v - mean) ==
            Expansion(mean, squares + v * v, total + v, k + 1.0)
  {
    SquareOfDifference(v, mean);
    ExpandStep(mean, squares, total, v, k);
  }

  /** The sum of squared deviations from any point, multiplied out. */
  lemma {:induction false} DeviationsExpand(values: seq<int>, mean: real, n: nat)
    requires n <= |values|
    ensures SquaredDeviations(values, mean, n) ==
            Expansion(mean, SumFirst(Squares(values), n) as real, SumFirst(values, n) as real, n as real)
  {
    if n == 0 {
      NoExpansion(mean);
    } else {
      hide Expansion, Square;
      var v := values[n - 1];
      DeviationsExpand(values, mean, n - 1);
      SquareIsReal(v);
      assert Squares(values)[n - 1] == v * v;
      ExpansionStep(mean, SumFirst(Squares(values), n - 1) as real, SumFirst(values, n - 1) as real, v as real,
                    (n - 1) as real);
    }
  }

  lemma NoExpansion(mean: real)
    ensures Expansion(mean, 0.0, 0.0, 0.0) == 0.0
  {}

  lemma SquareIsReal(v: int)
    ensures (v * v) as real == v as real * v as real
  {}

  lemma MeanCancels(q: real, s: real, n: real, mean: real, variance: real)
    requires n > 0.0 && mean * n == s && variance * n == q - 2.0 * mean * s + n * mean * mean
    ensures n * n * variance == n * q - s * s
  {
    assert n * mean * mean == s * mean;
    assert variance * n == q - mean * s;
    assert n * (variance * n) == n * q - n * (mean * s);
    assert n * (mean * s) == (mean * n) * s;
  }

  lemma Divided(x: real, y: real)
    requires y > 0.0
    ensures x / y * y == x
  {}

  /** The computing formula: n squared times the variance is n times the sum of squares less
      the square of the sum. */
  lemma VarianceFormula(values: seq<int>)
    ensures (|values| * |values|) as real * Variance(values) ==
            (|values| * Sum(Squares(values)) - Sum(values) * Sum(values)) as real
  {
    hide Sum, SumFirst, Squares, SquaredDeviations;
    var n, s, q := |values|, Sum(values), Sum(Squares(values));
    if values == [] {
      assert Sum(values) == 0 by { EmptySum(values); }
    } else {
      var deviations := SquaredDeviations(values, Mean(values), n);
      TotalDeviations(values, Mean(values));
      Divided(s as real, n as real);
      Divided(deviations, n as real);
      MeanCancels(q as real, s as real, n as real, Mean(values), Variance(values));
      FormulaInReals(n, q, s, Variance(values));
    }
  }

  lemma EmptySum(values: seq<int>)
    requires values == []
    ensures Sum(values) == 0
  {}

  lemma TotalDeviations(values: seq<int>, mean: real)
    ensures SquaredDeviations(values, mean, |values|) ==
            Sum(Squares(values)) as real - 2.0 * mean * Sum(values) as real + |values| as real * mean * mean
  {
    hide SquaredDeviations, Square, SumFirst, Squares;
    DeviationsExpand(values, mean, |values|);
    assert |Squares(values)| == |values| by { SquaresLength(values); }
  }

  lemma SquaresLength(values: seq<int>)
    ensures |Squares(values)| == |values|
  {}

  lemma FormulaInReals(n: int, q: int, s: int, variance: real)
    requires n as real * n as real * variance == n as real * q as real - s as real * s as real
    ensures (n * n) as real * variance == (n * q - s * s) as real
  {
    ProductIsReal(n, q);
    SquareIsReal(n);
    SquareIsReal(s);
  }

  lemma ProductIsReal(a: int, b: int)
    ensures (a * b) as real == a as real * b as real
  {}

  // ---------- Zero exactly for constant series ----------

  ghost predicate Constant(values: seq<int>) {
    forall i, j :: 0 <= i < |values| && 0 <= j < |values| ==> values[i] == values[j]
  }

  lemma {:induction false} DeviationsSign(values: seq<int>, mean: real, n: nat)
    requires n <= |values|
    ensures (forall i :: 0 <= i < n ==> values[i] as real == mean) ==> SquaredDeviations(values, mean, n) == 0.0
    ensures (exists i :: 0 <= i < n && values[i] as real != mean) ==> SquaredDeviations(values, mean, n) > 0.0
  {
    if n > 0 {
      hide Square;
      DeviationsSign(values, mean, n - 1);
      SquareSign(values[n - 1] as real - mean);
      if forall i :: 0 <= i < n - 1 ==> values[i] as real == mean {
        assert SquaredDeviations(values, mean, n - 1) == 0.0;
      }
    }
  }

  lemma {:induction false} SameSignProduct(x: real, y: real, product: real)
    requires (x > 0.0 && y > 0.0) || (x < 0.0 && y < 0.0)
    requires product == x * y
    ensures product > 0.0
    decreases x < 0.0
  {
    if x < 0.0 {
      SameSignProduct(-x, -y, product);
    }
  }

  lemma SquareSign(x: real)
    ensures x != 0.0 ==> Square(x) > 0.0
    ensures x == 0.0 ==> Square(x) == 0.0
  {
    if x != 0.0 {
      SameSignProduct(x, x, Square(x));
    } else {
      SquareOfZero();
    }
  }

  lemma SquareOfZero()
    ensures Square(0.0) == 0.0
  {}

  lemma {:induction false} ConstantSum(values: seq<int>, c: int, n: nat)
    requires n <= |values| && forall i :: 0 <= i < |values| ==> values[i] == c
    ensures SumFirst(values, n) == n * c
  {
    if n > 0 {
      ConstantSum(values, c, n - 1);
    }
  }

  lemma QuotientSign(x: real, n: real)
    requires n > 0.0
    ensures x == 0.0 ==> x / n == 0.0
    ensures x > 0.0 ==> x / n > 0.0
  {
    Divided(x, n);
  }

  lemma MeanOfConstant(values: seq<int>, c: int)
    requires values != [] && forall i :: 0 <= i < |values| ==> values[i] == c
    ensures Mean(values) == c as real
  {
    ConstantSum(values, c, |values|);
    ProductIsReal(|values|, c);
    Divided(Sum(values) as real, |values| as real);
    assert (Mean(values) - c as real) * |values| as real == 0.0;
  }

  /** Variance is never negative, and zero exactly when all values are equal. */
  lemma VarianceZeroIff(values: seq<int>)
    ensures Variance(values) >= 0.0
    ensures Variance(values) == 0.0 <==> Constant(values)
  {
    if values != [] {
      DeviationsSign(values, Mean(values), |values|);
      QuotientSign(SquaredDeviations(values, Mean(values), |values|), |values| as real);
      if Constant(values) {
        MeanOfConstant(values, values[0]);
      }
    }
  }

  // ---------- The range bound ----------

  lemma InRange(v: int, lo: int, hi: int)
    requires lo <= v <= hi
    ensures v * v <= (lo + hi) * v - lo * hi
  {
    assert (v - lo) * (hi - v) >= 0;
  }

  lemma {:induction false} SquaresInRange(values: seq<int>, lo: int, hi: int, n: nat)
    requires n <= |values| && forall i :: 0 <= i < |values| ==> lo <= values[i] <= hi
    ensures SumFirst(Squares(values), n) <= (lo + hi) * SumFirst(values, n) - n * (lo * hi)
  {
    if n > 0 {
      SquaresInRange(values, lo, hi, n - 1);
      InRange(values[n - 1], lo, hi);
      Spread(lo + hi, SumFirst(values, n - 1), values[n - 1], n - 1, lo * hi);
    }
  }

  lemma Spread(a: int, s: int, v: int, n: int, c: int)
    ensures a * (s + v) - (n + 1) * c == (a * s - n * c) + (a * v - c)
  {}

  lemma FourTimes(n: int, q: int, s: int, lo: int, hi: int)
    requires n >= 0 && q <= (lo + hi) * s - n * (lo * hi)
    ensures 4 * (n * q - s * s) <= (n * n) * ((hi - lo) * (hi - lo))
  {
    var top := (lo + hi) * s - n * (lo * hi);
    assert n * q <= n * top;
    SquareCompletion(n, s, lo, hi);
  }

  lemma SquareCompletion(n: int, s: int, lo: int, hi: int)
    ensures 4 * (n * ((lo + hi) * s - n * (lo * hi)) - s * s) <= (n * n) * ((hi - lo) * (hi - lo))
  {
    var a, b := n * (hi - lo), n * (lo + hi) - 2 * s;
    assert b * b >= 0;
    assert a * a == (n * n) * ((hi - lo) * (hi - lo));
    CompleteExpanded(n, s, lo, hi);
  }

  lemma CompleteExpanded(n: int, s: int, lo: int, hi: int)
    ensures (n * (hi - lo)) * (n * (hi - lo)) - (n * (lo + hi) - 2 * s) * (n * (lo + hi) - 2 * s) ==
            4 * (n * ((lo + hi) * s - n * (lo * hi)) - s * s)
  {
    var u, v := n * hi, n * lo;
    assert n * (hi - lo) == u - v && n * (lo + hi) == u + v;
    assert (u - v) * (u - v) - (u + v - 2 * s) * (u + v - 2 * s) == 4 * ((u + v) * s - u * v - s * s);
    assert n * ((lo + hi) * s) == (u + v) * s;
    assert n * (n * (lo * hi)) == u * v;
  }

  lemma CancelSquare(m: int, x: int, top: int, variance: real)
    requires m > 0 && m as real * variance == top as real && 4 * top <= m * x
    ensures 4.0 * variance <= x as real
  {
    ProductIsReal(m, x);
    ProductIsReal(4, top);
    assert m as real * (4.0 * variance - x as real) <= 0.0;
  }

  lemma ProductPositive(n: int)
    requires n > 0
    ensures n * n > 0
  {}

  lemma SquareNonNegative(d: int)
    ensures d * d >= 0
  {}

  /** Values within [lo, hi] have a variance of at most a quarter of the squared range. */
  lemma VarianceBound(values: seq<int>, lo: int, hi: int)
    requires lo <= hi && forall i :: 0 <= i < |values| ==> lo <= values[i] <= hi
    ensures Variance(values) <= ((hi - lo) * (hi - lo)) as real / 4.0
  {
    SquareNonNegative(hi - lo);
    if values != [] {
      hide Variance, SumFirst, Squares;
      var n, s, q := |values|, Sum(values), Sum(Squares(values));
      SumsInRange(values, lo, hi);
      FourTimes(n, q, s, lo, hi);
      VarianceFormula(values);
      ProductPositive(n);
      CancelSquare(n * n, (hi - lo) * (hi - lo), n * q - s * s, Variance(values));
    }
  }

  lemma SumsInRange(values: seq<int>, lo: int, hi: int)
    requires forall i :: 0 <= i < |values| ==> lo <= values[i] <= hi
    ensures Sum(Squares(values)) <= (lo + hi) * Sum(values) - |values| * (lo * hi)
  {
    SquaresInRange(values, lo, hi, |values|);
  }

  // ---------- End to end ----------

  /** The demand a session reports is the start of its demand table. */
  lemma DemandIsTablePrefix(s: Session)
    requires Kept(s) && |s.scenario.consumerDemand| >= s.currentWeek
    ensures DemandSeries(s.history) == s.scenario.consumerDemand[..s.currentWeek]
  {
    hide RoleKept, OfRole, AllNodes, NodeByRole;
    assert Regular(s.history);
    SeriesIsColumn(s.history, Retailer, Requested);
    DemandRead(s);
    assert forall i :: 0 <= i < |s.history| ==>
      Column(s.history, Retailer, Requested)[i] == s.scenario.consumerDemand[i];
  }

  lemma DemandRead(s: Session)
    requires Kept(s)
    ensures DemandKept(s.scenario, s.history)
  {
    hide GoodsKept, OrdersKept, NodeKept, PastKept, DemandKept, NoNegatives;
    assert RoleKept(s, Retailer);
  }

  /** The variance the report shows for demand is bounded by the range of the table. */
  lemma ReportedDemandBound(s: Session, lo: int, hi: int)
    requires Kept(s) && |s.scenario.consumerDemand| >= s.currentWeek && lo <= hi
    requires forall i :: 0 <= i < |s.scenario.consumerDemand| ==> lo <= s.scenario.consumerDemand[i] <= hi
    ensures 0.0 <= Report(s.history).demandVariance <= ((hi - lo) * (hi - lo)) as real / 4.0
  {
    hide RoleKept, DemandSeries, Variance;
    if s.history == [] {
      VarianceBound([], lo, hi);
      VarianceZeroIff([]);
      assert Variance([]) == 0.0;
    } else {
      DemandIsTablePrefix(s);
      var demand := DemandSeries(s.history);
      assert forall i :: 0 <= i < |demand| ==> demand[i] == s.scenario.consumerDemand[i];
      VarianceBound(DemandSeries(s.history), lo, hi);
      VarianceZeroIff(DemandSeries(s.history));
    }
  }
}
