/** Scenarios and the compilation of a demand rule into a table of weekly demand.
    Models internal/domain/scenario.go. */
module Scenarios {
  import opened Common

  /** The demand mode string: empty, one of the two known modes, or anything else. */
  datatype DemandMode = Unspecified | Fixed | RandomBlocks | OtherMode(name: string)

  datatype Scenario = Scenario(
    id: string,
    initialInventory: int,
    initialBacklog: int,
    initialPipelineGoods: seq<int>,
    initialPipelineOrders: seq<int>,
    consumerDemand: seq<int>,
    shippingDelay: int,
    orderDelay: int,
    productionDelay: int,
    holdingCost: int,
    backlogCost: int,
    demandMode: DemandMode,
    demandMin: int,
    demandMax: int,
    demandChangePeriod: int)

  predicate NonNegative(values: seq<int>) {
    forall i :: 0 <= i < |values| ==> values[i] >= 0
  }

  function NormalizedMode(s: Scenario): DemandMode {
    if s.demandMode.Unspecified? then Fixed else s.demandMode
  }

  function ValidateDemand(s: Scenario): Option<Error> {
    match NormalizedMode(s)
    case Fixed =>
      if |s.consumerDemand| == 0 then Some(ScenarioDemandEmpty)
      else if !NonNegative(s.consumerDemand) then Some(NegativeValue)
      else None
    case RandomBlocks =>
      if s.demandMin < 0 || s.demandMax < 0 then Some(NegativeValue)
      else if s.demandMax < s.demandMin then Some(DemandRangeInverted)
      else if s.demandChangePeriod <= 0 then Some(DemandPeriodNotPositive)
      else None
    case _ => Some(UnsupportedDemandMode)
  }

  /** The first problem found, or None when the scenario is accepted. */
  function Validate(s: Scenario): Option<Error> {
    if s.initialInventory < 0 || s.initialBacklog < 0 || s.holdingCost < 0 || s.backlogCost < 0 then
      Some(NegativeValue)
    else if s.shippingDelay <= 0 || s.orderDelay <= 0 || s.productionDelay <= 0 then Some(InvalidDelay)
    else if !NonNegative(s.initialPipelineGoods) then Some(NegativeValue)
    else if !NonNegative(s.initialPipelineOrders) then Some(NegativeValue)
    else if ValidateDemand(s).Some? then ValidateDemand(s)
    else if |s.initialPipelineGoods| != s.shippingDelay then Some(GoodsPipelineLength)
    else if |s.initialPipelineOrders| != s.orderDelay then Some(OrderPipelineLength)
    else if |s.initialPipelineGoods| != s.productionDelay then Some(ProductionPipelineLength)
    else None
  }

  /** Reading an empty table past week zero is an index panic in the program, which
      is what the precondition excludes. */
  function DemandForWeek(s: Scenario, week: int): int
    requires week <= 0 || s.consumerDemand != []
  {
    if week <= 0 then 0
    else if week <= |s.consumerDemand| then s.consumerDemand[week - 1]
    else s.consumerDemand[|s.consumerDemand| - 1]
  }

  /** The program's random source, seen as an arbitrary sequence of draws; draw i is
      reduced to [0, n). */
  function Intn(draws: seq<nat>, i: nat, n: int): (r: int)
    requires n > 0
    ensures 0 <= r < n
  {
    if i < |draws| then draws[i] % n else 0
  }

  /** Every sequence of results in range is produced by some draws. */
  lemma AllResultsDrawn(results: seq<nat>, n: int) returns (draws: seq<nat>)
    requires n > 0 && forall i :: 0 <= i < |results| ==> results[i] < n
    ensures forall i :: 0 <= i < |results| ==> Intn(draws, i, n) == results[i]
  {
    draws := results;
  }

  function BlockDemand(s: Scenario, draws: seq<nat>, block: nat): int {
    if s.demandMax > s.demandMin then s.demandMin + Intn(draws, block, s.demandMax - s.demandMin + 1)
    else s.demandMin
  }

  /** Demand of table entry i: the draw of its block. */
  function EntryDemand(s: Scenario, draws: seq<nat>, i: nat): int
    requires s.demandChangePeriod > 0
  {
    BlockDemand(s, draws, i / s.demandChangePeriod)
  }

  /** The table a scenario is compiled to, week by week. */
  function DemandTable(s: Scenario, maxWeeks: nat, draws: seq<nat>): seq<int>
    requires Validate(s).None?
  {
    if NormalizedMode(s).Fixed? then seq(maxWeeks, i requires 0 <= i < maxWeeks => DemandForWeek(s, i + 1))
    else seq(maxWeeks, i requires 0 <= i < maxWeeks => EntryDemand(s, draws, i))
  }

  function Materialized(s: Scenario, maxWeeks: int, draws: seq<nat>): Result<Scenario> {
    if Validate(s).Some? then Err(Validate(s).value)
    else if maxWeeks <= 0 then Err(InvalidMaxWeeks)
    else Ok(s.(consumerDemand := DemandTable(s, maxWeeks, draws)))
  }

  method ExtendDemand(values: seq<int>, maxWeeks: int) returns (result: seq<int>)
    requires maxWeeks >= 0 && (values != [] || maxWeeks == 0)
    ensures |result| == maxWeeks
    ensures forall i :: 0 <= i < maxWeeks ==> result[i] == if i < |values| then values[i] else values[|values| - 1]
  {
    if |values| >= maxWeeks {
      return values[..maxWeeks];
    }
    result := values;
    var last := values[|values| - 1];
    while |result| < maxWeeks
      invariant |values| <= |result| <= maxWeeks
      invariant forall i :: 0 <= i < |result| ==> result[i] == if i < |values| then values[i] else last
    {
      result := result + [last];
    }
  }

  lemma BlockIndex(i: int, block: nat, period: int)
    requires period > 0 && block * period <= i < block * period + period
    ensures i / period == block
  {
    var ahead := i / period - block;
    assert i == (i / period) * period + i % period;
    assert -period < ahead * period < period;
    assert ahead >= 1 ==> ahead * period >= period;
    assert ahead <= -1 ==> ahead * period <= -period;
  }

  lemma EntryOfBlock(s: Scenario, draws: seq<nat>, i: nat, block: nat)
    requires s.demandChangePeriod > 0
    requires block * s.demandChangePeriod <= i < block * s.demandChangePeriod + s.demandChangePeriod
    ensures EntryDemand(s, draws, i) == BlockDemand(s, draws, block)
  {
    BlockIndex(i, block, s.demandChangePeriod);
  }

  method GenerateRandomBlockDemand(s: Scenario, maxWeeks: int, draws: seq<nat>) returns (demand: seq<int>)
    requires maxWeeks >= 0 && (s.demandChangePeriod > 0 || maxWeeks == 0)
    ensures |demand| == maxWeeks
    ensures forall i :: 0 <= i < maxWeeks ==> demand[i] == EntryDemand(s, draws, i)
  {
    hide EntryDemand;
    var table := new int[maxWeeks];
    var start, period := 0, s.demandChangePeriod;
    var block := 0;
    while start < maxWeeks
      invariant 0 <= block && start == block * period
      invariant forall i :: 0 <= i < start && i < maxWeeks ==> table[i] == EntryDemand(s, draws, i)
      decreases maxWeeks - start
    {
      var value := s.demandMin;
      if s.demandMax > s.demandMin {
        value := value + Intn(draws, block, s.demandMax - s.demandMin + 1);
      }
      assert value == BlockDemand(s, draws, block);
      var end := start + period;
      if end > maxWeeks {
        end := maxWeeks;
      }
      var i := start;
      while i < end
        invariant start <= i <= end
        invariant forall j :: 0 <= j < i ==> table[j] == EntryDemand(s, draws, j)
      {
        EntryOfBlock(s, draws, i, block);
        table[i] := value;
        i := i + 1;
      }
      start, block := start + period, block + 1;
    }
    demand := table[..];
  }

  method MaterializeDemand(s: Scenario, maxWeeks: int, draws: seq<nat>) returns (r: Result<Scenario>)
    ensures r == Materialized(s, maxWeeks, draws)
  {
    var problem := Validate(s);
    if problem.Some? {
      return Err(problem.value);
    }
    if maxWeeks <= 0 {
      return Err(InvalidMaxWeeks);
    }
    var demand: seq<int>;
    if NormalizedMode(s).Fixed? {
      demand := ExtendDemand(s.consumerDemand, maxWeeks);
    } else {
      demand := GenerateRandomBlockDemand(s, maxWeeks, draws);
    }
    assert demand == DemandTable(s, maxWeeks, draws);
    r := Ok(s.(consumerDemand := demand));
  }

  // ---------- What compilation preserves ----------

  /** Fixed mode: the table answers like the rule it came from in every playable week. */
  lemma FixedDemandPreserved(s: Scenario, maxWeeks: int, draws: seq<nat>, week: int)
    requires NormalizedMode(s).Fixed? && Materialized(s, maxWeeks, draws).Ok?
    requires 1 <= week <= maxWeeks
    ensures var m := Materialized(s, maxWeeks, draws).value;
            m.consumerDemand != [] && DemandForWeek(m, week) == DemandForWeek(s, week)
  {
    var m := Materialized(s, maxWeeks, draws).value;
    assert m.consumerDemand[week - 1] == DemandForWeek(s, week);
  }

  /** Random mode: the value of a week depends on its block alone and is in range. */
  lemma RandomDemandBlocks(s: Scenario, maxWeeks: int, draws: seq<nat>, v: int, w: int)
    requires NormalizedMode(s).RandomBlocks? && Materialized(s, maxWeeks, draws).Ok?
    requires 1 <= v <= maxWeeks && 1 <= w <= maxWeeks
    ensures var m := Materialized(s, maxWeeks, draws).value;
            && m.consumerDemand != []
            && s.demandMin <= DemandForWeek(m, v) <= s.demandMax
            && ((v - 1) / s.demandChangePeriod == (w - 1) / s.demandChangePeriod
                ==> DemandForWeek(m, v) == DemandForWeek(m, w))
  {
    var m := Materialized(s, maxWeeks, draws).value;
    assert m.consumerDemand[v - 1] == EntryDemand(s, draws, v - 1);
    assert m.consumerDemand[w - 1] == EntryDemand(s, draws, w - 1);
  }

  /** A compiled scenario is valid again, has one entry per week, and in random mode
      all its entries lie between the bounds. */
  lemma MaterializedIsValid(s: Scenario, maxWeeks: int, draws: seq<nat>)
    requires Materialized(s, maxWeeks, draws).Ok?
    ensures var m := Materialized(s, maxWeeks, draws).value;
            && Validate(m).None?
            && |m.consumerDemand| == maxWeeks
            && m == s.(consumerDemand := m.consumerDemand)
            && (NormalizedMode(m).RandomBlocks? ==>
                  forall i :: 0 <= i < maxWeeks ==> m.demandMin <= m.consumerDemand[i] <= m.demandMax)
  {
    var m := Materialized(s, maxWeeks, draws).value;
    forall i | 0 <= i < maxWeeks
      ensures m.consumerDemand[i] >= 0
      ensures NormalizedMode(s).RandomBlocks? ==> s.demandMin <= m.consumerDemand[i] <= s.demandMax
    {
      if NormalizedMode(s).RandomBlocks? {
        RandomDemandBlocks(s, maxWeeks, draws, i + 1, i + 1);
      }
    }
  }

  /** Validate ties three lengths together, so shipping and production take equally long. */
  lemma ValidDelaysAgree(s: Scenario)
    requires Validate(s).None?
    ensures s.shippingDelay == s.productionDelay == |s.initialPipelineGoods| > 0
    ensures s.orderDelay == |s.initialPipelineOrders| > 0
  {}

  /** The demand of every week can be read and is not negative. */
  ghost predicate DemandReadable(s: Scenario) {
    s.consumerDemand != [] && NonNegative(s.consumerDemand)
  }

  /** Which accepted scenarios answer for every week with a demand that is not negative: all
      those in fixed mode, and in random mode, whose table Validate does not look at, exactly
      those that come with a non-empty table without negative entries. */
  lemma ValidDemandReadableIff(s: Scenario)
    requires Validate(s).None?
    ensures (s.consumerDemand != [] && forall week :: DemandForWeek(s, week) >= 0) <==>
            NormalizedMode(s).Fixed? || (s.consumerDemand != [] && NonNegative(s.consumerDemand))
    ensures DemandReadable(s) <==> s.consumerDemand != [] && forall week :: DemandForWeek(s, week) >= 0
    ensures s.consumerDemand == [] ==> NormalizedMode(s).RandomBlocks?
  {
    if s.consumerDemand != [] && forall week :: DemandForWeek(s, week) >= 0 {
      forall i | 0 <= i < |s.consumerDemand| ensures s.consumerDemand[i] >= 0 {
        assert DemandForWeek(s, i + 1) == s.consumerDemand[i];
      }
    }
  }

  /** A random scenario passes Validate with an empty table; only compilation makes its
      demand readable. */
  lemma RandomScenarioMayBeUnreadable() returns (s: Scenario)
    ensures Validate(s).None? && s.consumerDemand == []
    ensures Materialized(s, 1, []).Ok? && Materialized(s, 1, []).value.consumerDemand != []
  {
    s := Scenario("random", 12, 0, [4, 4], [4], [], 2, 1, 2, 1, 2, RandomBlocks, 8, 20, 5);
    MaterializedIsValid(s, 1, []);
  }

  /** A random scenario passes Validate with a negative entry in its table. */
  lemma RandomScenarioMayBeNegative() returns (s: Scenario)
    ensures Validate(s).None? && s.consumerDemand != [] && DemandForWeek(s, 1) < 0 && !DemandReadable(s)
  {
    s := Scenario("random", 12, 0, [4, 4], [4], [-1], 2, 1, 2, 1, 2, RandomBlocks, 8, 20, 5);
  }

  // ---------- What is accepted, and what is read ----------

  ghost predicate CountsOk(s: Scenario) {
    s.initialInventory >= 0 && s.initialBacklog >= 0 && s.holdingCost >= 0 && s.backlogCost >= 0
  }

  ghost predicate DelaysOk(s: Scenario) {
    s.shippingDelay > 0 && s.orderDelay > 0 && s.productionDelay > 0
  }

  ghost predicate NoneBelowZero(values: seq<int>) {
    forall v :: v in values ==> v >= 0
  }

  /** The rule behind the demand: a given table, or a range redrawn every period. */
  ghost predicate DemandOk(s: Scenario) {
    match s.demandMode
    case Unspecified => s.consumerDemand != [] && NoneBelowZero(s.consumerDemand)
    case Fixed => s.consumerDemand != [] && NoneBelowZero(s.consumerDemand)
    case RandomBlocks => 0 <= s.demandMin <= s.demandMax && s.demandChangePeriod > 0
    case OtherMode(_) => false
  }

  ghost predicate LengthsOk(s: Scenario) {
    && |s.initialPipelineGoods| == s.shippingDelay && |s.initialPipelineOrders| == s.orderDelay
    && |s.initialPipelineGoods| == s.productionDelay
  }

  ghost predicate PipelinesOk(s: Scenario) {
    NoneBelowZero(s.initialPipelineGoods) && NoneBelowZero(s.initialPipelineOrders)
  }

  lemma NoneBelow(values: seq<int>)
    ensures NonNegative(values) <==> NoneBelowZero(values)
  {
    if NoneBelowZero(values) {
      forall i | 0 <= i < |values| ensures values[i] >= 0 {
        assert values[i] in values;
      }
    }
  }

  /** The scenarios that are accepted, and the fault that each refusal names; a fault is
      reported only when the checks before it pass. */
  lemma ValidateRefusals(s: Scenario)
    ensures Validate(s).None? <==> CountsOk(s) && DelaysOk(s) && PipelinesOk(s) && DemandOk(s) && LengthsOk(s)
    ensures Validate(s).Some? ==>
              Validate(s).value == if !CountsOk(s) then NegativeValue
                                   else if !DelaysOk(s) then InvalidDelay
                                   else if !PipelinesOk(s) then NegativeValue
                                   else if !DemandOk(s) then DemandFault(s)
                                   else LengthFault(s)
  {
    NoneBelow(s.initialPipelineGoods);
    NoneBelow(s.initialPipelineOrders);
    NoneBelow(s.consumerDemand);
  }

  ghost function DemandFault(s: Scenario): Error
    requires !DemandOk(s)
  {
    match s.demandMode
    case Unspecified => if s.consumerDemand == [] then ScenarioDemandEmpty else NegativeValue
    case Fixed => if s.consumerDemand == [] then ScenarioDemandEmpty else NegativeValue
    case RandomBlocks =>
      if MinInt(s.demandMin, s.demandMax) < 0 then NegativeValue
      else if s.demandMin > s.demandMax then DemandRangeInverted
      else DemandPeriodNotPositive
    case OtherMode(_) => UnsupportedDemandMode
  }

  ghost function LengthFault(s: Scenario): Error {
    if s.shippingDelay != |s.initialPipelineGoods| then GoodsPipelineLength
    else if s.orderDelay != |s.initialPipelineOrders| then OrderPipelineLength
    else ProductionPipelineLength
  }

  /** Nobody asks for anything before week one; from then on the table is read entry by entry,
      and its last entry stands for all later weeks. */
  lemma DemandReads(s: Scenario, week: int)
    requires s.consumerDemand != []
    ensures week <= 0 ==> DemandForWeek(s, week) == 0
    ensures week >= 1 ==> DemandForWeek(s, week) == s.consumerDemand[MinInt(week, |s.consumerDemand|) - 1]
  {}

  /** The range is used to its ends: any sequence of values within it is the demand of the
      blocks for some draws. */
  lemma AllBlocksDrawn(s: Scenario, values: seq<int>) returns (draws: seq<nat>)
    requires forall i :: 0 <= i < |values| ==> s.demandMin <= values[i] <= s.demandMax
    ensures forall i :: 0 <= i < |values| ==> BlockDemand(s, draws, i) == values[i]
  {
    draws := seq(|values|, i requires 0 <= i < |values| => values[i] - s.demandMin);
  }

  /** Compilation is refused for an invalid scenario first, then for a game without weeks. */
  lemma CompileRefusals(s: Scenario, maxWeeks: int, draws: seq<nat>)
    ensures Validate(s).Some? ==> Materialized(s, maxWeeks, draws) == Err(Validate(s).value)
    ensures Validate(s).None? && maxWeeks <= 0 ==> Materialized(s, maxWeeks, draws) == Err(InvalidMaxWeeks)
    ensures Validate(s).None? && maxWeeks > 0 ==> Materialized(s, maxWeeks, draws).Ok?
  {}
}
