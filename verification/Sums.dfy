/** Sums of integer sequences. */
module Sums {
  /** The sum of the first n values; n may lie outside the sequence. */
  function SumFirst(values: seq<int>, n: int): int
    decreases n
  {
    if n <= 0 then 0 else SumFirst(values, n - 1) + (if n <= |values| then values[n - 1] else 0)
  }

  function Sum(values: seq<int>): int {
    SumFirst(values, |values|)
  }

  /** The sum of a prefix depends on that prefix alone. */
  lemma {:induction false} SumFirstAgrees(a: seq<int>, b: seq<int>, n: int)
    requires n <= |a| && n <= |b|
    requires forall i :: 0 <= i < n ==> a[i] == b[i]
    ensures SumFirst(a, n) == SumFirst(b, n)
    decreases n
  {
    if n > 0 {
      SumFirstAgrees(a, b, n - 1);
    }
  }

  lemma {:induction false} SumFirstPast(values: seq<int>, n: int)
    requires n >= |values|
    ensures SumFirst(values, n) == Sum(values)
    decreases n
  {
    if n > |values| {
      SumFirstPast(values, n - 1);
    }
  }

  lemma SumSnoc(values: seq<int>, x: int)
    ensures Sum(values + [x]) == Sum(values) + x
  {
    SumFirstAgrees(values + [x], values, |values|);
  }

  lemma {:induction false} SumConcat(a: seq<int>, b: seq<int>)
    ensures Sum(a + b) == Sum(a) + Sum(b)
    decreases |b|
  {
    if b == [] {
      assert a + b == a;
    } else {
      var front, last := b[..|b| - 1], b[|b| - 1];
      assert a + b == (a + front) + [last] && b == front + [last];
      SumConcat(a, front);
      SumSnoc(a + front, last);
      SumSnoc(front, last);
    }
  }

  lemma {:induction false} SumFirstNonNegative(values: seq<int>, n: int)
    requires forall i :: 0 <= i < |values| ==> values[i] >= 0
    ensures SumFirst(values, n) >= 0
    decreases n
  {
    if n > 0 {
      SumFirstNonNegative(values, n - 1);
    }
  }

  /** Pointwise order carries over to the prefix sums. */
  lemma {:induction false} SumFirstMonotone(a: seq<int>, b: seq<int>, n: int)
    requires |a| == |b|
    requires forall i :: 0 <= i < |a| ==> a[i] <= b[i]
    ensures SumFirst(a, n) <= SumFirst(b, n)
    decreases n
  {
    if n > 0 {
      SumFirstMonotone(a, b, n - 1);
    }
  }

  /** Cumulative arrivals of a delay line: its initial content first, then what was sent,
      one delay later. */
  lemma {:induction false} FifoTotal(out: seq<int>, queue: seq<int>, initial: seq<int>, sent: seq<int>, t: int)
    requires out + queue == initial + sent && t <= |out|
    ensures SumFirst(out, t) == SumFirst(initial, t) + SumFirst(sent, t - |initial|)
    decreases t
  {
    if t > 0 {
      FifoTotal(out, queue, initial, sent, t - 1);
      assert out[t - 1] == (out + queue)[t - 1] == (initial + sent)[t - 1];
    }
  }
}
