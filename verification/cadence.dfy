/**
 * The shared tick counter of the aggregator (`periodTick`, `periodMax`) and
 * the rule that decides which wrappers fire on a call.
 */
module Cadence {

  /** `periodMax`: the counter's bound, in minutes. */
  const PeriodMax := 120

  /**
   * The counter after one call outside preroll: below the bound it is
   * incremented; at the bound it is reset to 0 (and nothing fired).
   */
  function NextTick(t: int): (r: int)
    ensures 0 <= t <= PeriodMax ==> 0 <= r <= PeriodMax
    ensures t == PeriodMax ==> r == 0
  {
    if t < PeriodMax then t + 1 else 0
  }

  /** A wrapper of the given period fires on a call that sees counter value `t`. */
  predicate Fires(t: int, period: int)
    requires period > 0
  {
    t < PeriodMax && t % period == 0
  }

  /** The counter values seen by `n` successive calls outside preroll, starting from `t`. */
  function Ticks(t: int, n: nat): seq<int>
    decreases n
  {
    if n == 0 then [] else [t] + Ticks(NextTick(t), n - 1)
  }

  /** The integers a, a+1, ..., b-1. */
  function Range(a: int, b: int): (r: seq<int>)
    requires a <= b
    ensures |r| == b - a
    decreases b - a
  {
    if a == b then [] else [a] + Range(a + 1, b)
  }

  /** How many of the given counter values make a wrapper of this period fire. */
  function FireCount(ticks: seq<int>, period: int): nat
    requires period > 0
  {
    if ticks == [] then 0
    else (if Fires(ticks[0], period) then 1 else 0) + FireCount(ticks[1..], period)
  }

  lemma {:induction false} FireCountAppend(a: seq<int>, b: seq<int>, period: int)
    requires period > 0
    ensures FireCount(a + b, period) == FireCount(a, period) + FireCount(b, period)
  {
    if a == [] {
      assert a + b == b;
    } else {
      assert (a + b)[1..] == a[1..] + b;
      FireCountAppend(a[1..], b, period);
    }
  }

  lemma {:induction false} RangeSplit(a: int, m: int, b: int)
    requires a <= m <= b
    ensures Range(a, b) == Range(a, m) + Range(m, b)
    decreases m - a
  {
    if a < m {
      RangeSplit(a + 1, m, b);
    }
  }

  /** Below the bound, successive calls see successive counter values. */
  lemma {:induction false} TicksClimb(t: int, n: nat)
    requires 0 <= t && t + n <= PeriodMax
    ensures Ticks(t, n) == Range(t, t + n)
    decreases n
  {
    if n > 0 {
      TicksClimb(t + 1, n - 1);
    }
  }

  /**
   * From `t`, the calls see t, ..., 120, then wrap to 0 and go on (the bound
   * is the parameter `m`, so that no term is unrolled on literals).
   */
  lemma {:induction false} TicksWrap(t: int, n: nat, m: int)
    requires m == PeriodMax && 0 <= t <= m
    ensures Ticks(t, m + 1 - t + n) == Range(t, m + 1) + Ticks(0, n)
    decreases m - t
  {
    var k: nat := m + 1 - t + n;
    var rest: nat := k - 1;
    TicksStep(t, k);
    if t < m {
      assert NextTick(t) == t + 1;
      assert rest == m + 1 - (t + 1) + n;
      TicksWrap(t + 1, n, m);
      var tail := Ticks(t + 1, rest);
      assert tail == Range(t + 1, m + 1) + Ticks(0, n);
      RangeStep(t, m + 1);
      assert Ticks(t, k) == [t] + tail;
    } else {
      assert NextTick(t) == 0 && rest == n;
      RangeStep(t, m + 1);
      assert Range(t + 1, m + 1) == [];
    }
  }

  lemma TicksStep(t: int, k: nat)
    requires k > 0
    ensures Ticks(t, k) == [t] + Ticks(NextTick(t), k - 1)
  {
  }

  lemma RangeStep(a: int, b: int)
    requires a < b
    ensures Range(a, b) == [a] + Range(a + 1, b)
  {
  }

  /** A product of a positive number and a non-zero integer is at least that number in size. */
  lemma MulAtLeast(p: int, x: int)
    requires 0 < p
    ensures x >= 1 ==> x * p >= p
    ensures x <= -1 ==> x * p <= -p
  {
  }

  /** Euclidean remainder of a multiple of `p` plus a small offset. */
  lemma ModAfterMultiple(q: int, p: int, r: int)
    requires 0 < p && 0 <= r < p
    ensures (q * p + r) % p == r
  {
    var a := q * p + r;
    var d, m := a / p, a % p;
    assert a == d * p + m && 0 <= m < p;
    assert (q - d) * p == m - r;
    MulAtLeast(p, q - d);
  }

  /** Between two multiples of the period nothing fires. */
  lemma {:induction false} QuietBetween(q: nat, period: int, j: int)
    requires 0 < period && 1 <= j <= period
    ensures FireCount(Range(q * period + 1, q * period + j), period) == 0
    decreases j
  {
    if j > 1 {
      var a := q * period;
      RangeSplit(a + 1, a + j - 1, a + j);
      FireCountAppend(Range(a + 1, a + j - 1), Range(a + j - 1, a + j), period);
      ModAfterMultiple(q, period, j - 1);
      QuietBetween(q, period, j - 1);
    }
  }

  /** Counter values 0 .. q*period-1 make a wrapper fire exactly q times. */
  lemma {:induction false} FiresPerMultiple(q: nat, period: int)
    requires 0 < period && q * period <= PeriodMax
    ensures FireCount(Range(0, q * period), period) == q
  {
    if q > 0 {
      var a := (q - 1) * period;
      assert a + period == q * period;
      assert a < PeriodMax;
      RangeSplit(0, a, a + period);
      RangeSplit(a, a + 1, a + period);
      FireCountAppend(Range(0, a), Range(a, a + period), period);
      FireCountAppend(Range(a, a + 1), Range(a + 1, a + period), period);
      ModAfterMultiple(q - 1, period, 0);
      QuietBetween(q - 1, period, period);
      FiresPerMultiple(q - 1, period);
    }
  }

  /**
   * Any 121 successive calls outside preroll, from any reachable counter
   * value, fire a wrapper whose period divides 120 exactly 120/period times.
   */
  lemma FiresPerCycle(t: int, period: int)
    requires 0 <= t <= PeriodMax
    requires 0 < period && PeriodMax % period == 0
    ensures FireCount(Ticks(t, PeriodMax + 1), period) == PeriodMax / period
  {
    CycleCount(t, period, PeriodMax);
  }

  /** `FiresPerCycle` with the bound kept symbolic, so that no term is unrolled on literals. */
  lemma CycleCount(t: int, period: int, m: int)
    requires m == PeriodMax && 0 <= t <= m
    requires 0 < period && m % period == 0
    ensures FireCount(Ticks(t, m + 1), period) == m / period
  {
    RotatedCycle(t, period, m);
    RangeSplit(0, m, m + 1);
    FireCountAppend(Range(0, m), Range(m, m + 1), period);
    BoundQuiet(period, m);
    var q := m / period;
    DivExact(m, period);
    FiresPerMultiple(q, period);
  }

  /** The call that sees the bound fires nothing. */
  lemma BoundQuiet(period: int, m: int)
    requires m == PeriodMax && 0 < period
    ensures FireCount(Range(m, m + 1), period) == 0
  {
    RangeStep(m, m + 1);
    assert Range(m, m + 1) == [m];
    assert !Fires(m, period);
  }

  lemma DivExact(m: int, p: int)
    requires 0 < p && m % p == 0
    ensures (m / p) * p == m
  {
  }

  /** A cycle that starts at `t` sees the same counter values as one that starts at 0. */
  lemma RotatedCycle(t: int, period: int, m: int)
    requires m == PeriodMax && 0 <= t <= m && 0 < period
    ensures FireCount(Ticks(t, m + 1), period) == FireCount(Range(0, m + 1), period)
  {
    TicksWrap(t, t, m);
    TicksClimb(0, t);
    FireCountAppend(Range(t, m + 1), Range(0, t), period);
    RangeSplit(0, t, m + 1);
    FireCountAppend(Range(0, t), Range(t, m + 1), period);
  }
}
