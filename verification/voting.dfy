/**
 * The weighted-majority vote of the aggregator (`calculateThreshold`,
 * `processSignals`) as functions of the wrappers' weights and signals.
 */
module Voting {
  import opened Results
  import opened Options

  const BUY := "buy"
  const SELL := "sell"
  const HOLD := "hold"

  /** One wrapper's ballot: its weight and its current signal (any string a sub-strategy left). */
  datatype Vote = Vote(weight: int, signal: string)

  predicate PositiveWeights(b: seq<Vote>) {
    forall i :: 0 <= i < |b| ==> b[i].weight > 0
  }

  /** `sigPossible`: the sum of all weights. */
  function Possible(b: seq<Vote>): int {
    if b == [] then 0 else Possible(b[..|b| - 1]) + b[|b| - 1].weight
  }

  /** A sell counts minus its weight, a buy plus its weight, anything else nothing. */
  function Contribution(v: Vote): int {
    if v.signal == SELL then -v.weight
    else if v.signal == BUY then v.weight
    else 0
  }

  /** `sigTotal`: the signed weighted sum of the signals. */
  function Tally(b: seq<Vote>): int {
    if b == [] then 0 else Tally(b[..|b| - 1]) + Contribution(b[|b| - 1])
  }

  /** The total weight of the votes carrying exactly the given signal. */
  function WeightFor(b: seq<Vote>, signal: string): int {
    if b == [] then 0
    else (if b[0].signal == signal then b[0].weight else 0) + WeightFor(b[1..], signal)
  }

  /** `Math.ceil(p / 2)` for an integer p. */
  function CeilHalf(p: int): (h: int)
    ensures p <= 2 * h <= p + 1
  {
    -((-p) / 2)
  }

  function Abs(x: int): nat {
    if x < 0 then -x else x
  }

  /** A percentage as JavaScript computes it: a number, or NaN from 0/0. */
  datatype Pct = Pct(n: int) | NaN

  /**
   * `Math.round(a / p * 100)` for 0 <= a <= p: NaN when p is 0, otherwise the
   * integer nearest to 100a/p, halves rounded up.
   */
  function RoundPct(a: int, p: int): (r: Pct)
    requires 0 <= a <= p
    ensures p == 0 <==> r.NaN?
  {
    if p == 0 then NaN else Pct((200 * a + p) / (2 * p))
  }

  /** The rounded percentage is the integer nearest to 100a/p, halves rounded up. */
  lemma RoundPctNearest(a: int, p: int)
    requires 0 <= a <= p
    ensures var r := RoundPct(a, p);
      r.Pct? ==> 2 * p * r.n <= 200 * a + p < 2 * p * (r.n + 1)
  {
  }

  /**
   * What `processSignals` decides: the value written to `s.signal` (None when
   * nothing is written) and `pctToTrade`.
   */
  datatype Decision = Decision(signal: Option<string>, pct: Pct)

  function Decide(total: int, possible: int): (d: Decision)
    requires Abs(total) <= possible
    ensures d.signal.None? <==> possible == 0
    ensures d.pct.NaN? <==> possible == 0
    ensures d.signal == Some(BUY) ==> total > 0
    ensures d.signal == Some(SELL) ==> total < 0
    ensures d.signal == Some(HOLD) ==> d.pct == Pct(0)
  {
    if Abs(total) >= CeilHalf(possible) then
      var pct := RoundPct(Abs(total), possible);
      if total > 0 then Decision(Some(BUY), pct)
      else if total < 0 then Decision(Some(SELL), pct)
      else Decision(None, pct)
    else Decision(Some(HOLD), Pct(0))
  }

  /** The shared option map after a decision: `buy_pct` or `sell_pct` is set, or nothing. */
  function WritePct(options: map<string, Value>, d: Decision): (r: map<string, Value>)
    ensures r.Keys == options.Keys || r.Keys == options.Keys + {"buy_pct"} || r.Keys == options.Keys + {"sell_pct"}
    ensures forall k :: k in options && k != "buy_pct" && k != "sell_pct" ==> r[k] == options[k]
  {
    match d.pct
    case NaN => options
    case Pct(n) =>
      if d.signal == Some(BUY) then options["buy_pct" := Num(n as real)]
      else if d.signal == Some(SELL) then options["sell_pct" := Num(n as real)]
      else options
  }

  /**
   * Whether a notice is printed: the new signal or percentage differs from
   * the recorded one (`!=` in JavaScript, under which NaN differs from everything).
   */
  predicate Changed(sigOld: Option<string>, pctOld: Option<Pct>, signal: Option<string>, pct: Pct)
    ensures pct.NaN? || pctOld == Some(NaN) ==> Changed(sigOld, pctOld, signal, pct)
    ensures !Changed(sigOld, pctOld, signal, pct) ==> sigOld == signal && pctOld == Some(pct)
  {
    sigOld != signal || !(pctOld.Some? && pctOld.value.Pct? && pct.Pct? && pctOld.value.n == pct.n)
  }

  /** With positive weights the signed total never exceeds the possible total. */
  lemma {:induction false} TallyBound(b: seq<Vote>)
    requires PositiveWeights(b)
    ensures Abs(Tally(b)) <= Possible(b)
    ensures |b| <= Possible(b)
  {
    if b != [] {
      TallyBound(b[..|b| - 1]);
    }
  }

  lemma {:induction false} WeightForAppend(a: seq<Vote>, v: Vote, signal: string)
    ensures WeightFor(a + [v], signal) == WeightFor(a, signal) + (if v.signal == signal then v.weight else 0)
  {
    if a != [] {
      assert (a + [v])[1..] == a[1..] + [v];
      WeightForAppend(a[1..], v, signal);
    }
  }

  /** `sigTotal` is the buy weight minus the sell weight. */
  lemma {:induction false} TallySplit(b: seq<Vote>)
    ensures Tally(b) == WeightFor(b, BUY) - WeightFor(b, SELL)
  {
    if b != [] {
      var init := b[..|b| - 1];
      assert b == init + [b[|b| - 1]];
      TallySplit(init);
      WeightForAppend(init, b[|b| - 1], BUY);
      WeightForAppend(init, b[|b| - 1], SELL);
    }
  }

  lemma {:induction false} WeightForNonNegative(b: seq<Vote>, signal: string)
    requires PositiveWeights(b)
    ensures WeightFor(b, signal) >= 0
  {
    if b != [] {
      WeightForNonNegative(b[1..], signal);
    }
  }

  /**
   * The decision rule: buy iff the total is positive and reaches the
   * threshold, sell iff it is negative and reaches it, hold iff it falls
   * short; a signal is always written, and a hold trades 0 percent.
   */
  lemma DecisionRule(b: seq<Vote>)
    requires PositiveWeights(b) && b != []
    ensures Abs(Tally(b)) <= Possible(b)
    ensures var t, h := Tally(b), CeilHalf(Possible(b));
      var d := Decide(t, Possible(b));
      && d.signal.Some?
      && (d.signal == Some(BUY) <==> t > 0 && Abs(t) >= h)
      && (d.signal == Some(SELL) <==> t < 0 && Abs(t) >= h)
      && (d.signal == Some(HOLD) <==> Abs(t) < h)
      && (d.signal == Some(HOLD) ==> d.pct == Pct(0))
  {
    TallyBound(b);
  }

  /**
   * A buy or sell trades between 50 and 100 percent: round(|total| * 100 / possible).
   */
  lemma PctBounds(b: seq<Vote>)
    requires PositiveWeights(b) && b != []
    ensures Abs(Tally(b)) <= Possible(b)
    ensures var d := Decide(Tally(b), Possible(b));
      d.signal != Some(HOLD) ==> d.pct.Pct? && 50 <= d.pct.n <= 100
  {
    TallyBound(b);
    var t, p := Tally(b), Possible(b);
    if Decide(t, p).signal != Some(HOLD) {
      PctRange(Abs(t), p);
    }
  }

  /**
   * Only a buy writes `buy_pct`, only a sell writes `sell_pct`, each with the
   * traded percentage, and a hold writes neither.
   */
  lemma WriteRule(b: seq<Vote>, options: map<string, Value>)
    requires PositiveWeights(b) && b != []
    ensures Abs(Tally(b)) <= Possible(b)
    ensures var d := Decide(Tally(b), Possible(b));
      var w := WritePct(options, d);
      && (d.signal == Some(BUY) ==> d.pct.Pct? && w == options["buy_pct" := Num(d.pct.n as real)])
      && (d.signal == Some(SELL) ==> d.pct.Pct? && w == options["sell_pct" := Num(d.pct.n as real)])
      && (d.signal == Some(HOLD) ==> w == options)
  {
    PctBounds(b);
  }

  lemma MulNonNegative(x: int, y: int)
    requires 0 <= x && 0 <= y
    ensures 0 <= x * y
  {
  }

  /** round(100a/p) lies in [50, 100] when p/2 <= a <= p. */
  lemma PctRange(a: int, p: int)
    requires 0 < p && p <= 2 * a && a <= p
    ensures 50 <= (200 * a + p) / (2 * p) <= 100
  {
    var q, x := 2 * p, 200 * a + p;
    var n, r := x / q, x % q;
    assert x == q * n + r && 0 <= r < q;
    assert x >= 101 * p;
    assert x <= 201 * p;
    if n < 50 {
      MulNonNegative(q, 49 - n);
      assert false;
    }
    if n > 100 {
      MulNonNegative(q, n - 101);
      assert false;
    }
  }

  /**
   * A buy needs at least half of all voting weight on buy, a sell at least
   * half on sell.
   */
  lemma MajorityNeedsHalf(b: seq<Vote>)
    requires PositiveWeights(b) && b != []
    ensures Abs(Tally(b)) <= Possible(b)
    ensures Decide(Tally(b), Possible(b)).signal == Some(BUY) ==> 2 * WeightFor(b, BUY) >= Possible(b)
    ensures Decide(Tally(b), Possible(b)).signal == Some(SELL) ==> 2 * WeightFor(b, SELL) >= Possible(b)
  {
    TallyBound(b);
    TallySplit(b);
    WeightForNonNegative(b, BUY);
    WeightForNonNegative(b, SELL);
  }

  /** The total reaches the possible total exactly when every wrapper signals buy. */
  lemma {:induction false} Unanimous(b: seq<Vote>)
    requires PositiveWeights(b)
    ensures Tally(b) == Possible(b) <==> forall i :: 0 <= i < |b| ==> b[i].signal == BUY
  {
    if b != [] {
      var init := b[..|b| - 1];
      Unanimous(init);
      TallyBound(init);
      if Tally(b) == Possible(b) {
        assert Contribution(b[|b| - 1]) == b[|b| - 1].weight;
        assert forall i :: 0 <= i < |b| - 1 ==> b[i] == init[i];
      }
    }
  }

  /**
   * With no wrapper the vote divides 0 by 0: `s.signal` is not written, the
   * percentage is NaN, and a notice is due on every call.
   */
  lemma EmptyVote(sigOld: Option<string>, pctOld: Option<Pct>, signal: Option<string>)
    ensures Decide(Tally([]), Possible([])) == Decision(None, NaN)
    ensures Changed(sigOld, pctOld, signal, NaN)
  {
  }

  /** Once a signal and a number are recorded, the same pair is not a change. */
  lemma RecordedIsQuiet(signal: Option<string>, pct: Pct)
    ensures pct.Pct? ==> !Changed(signal, Some(pct), signal, pct)
    ensures Changed(signal, Some(pct), signal, pct) ==> pct.NaN?
  {
  }
}
