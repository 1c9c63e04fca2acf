/** The aggregator's one-line status report (`onReport`). */
module Report {
  import opened Results
  import opened Voting
  import Options

  /** A registered wrapper as the report sees it: its name and current signal. */
  datatype Entry = Entry(name: string, signal: string)

  /** `B` for buy, `S` for sell, `H` for anything else. */
  function Code(signal: string): char {
    if signal == BUY then 'B' else if signal == SELL then 'S' else 'H'
  }

  function Segment(e: Entry): string {
    e.name + ":" + [Code(e.signal)] + " | "
  }

  /** The per-wrapper part of the line, in registry order. */
  function Segments(es: seq<Entry>): string {
    if es == [] then "" else Segments(es[..|es| - 1]) + Segment(es[|es| - 1])
  }

  /** The overall word, chosen by the sign of the total alone. */
  function SignWord(total: int): (w: string)
    ensures w == BUY <==> total > 0
    ensures w == SELL <==> total < 0
    ensures w == HOLD <==> total == 0
  {
    if total < 0 then SELL else if total > 0 then BUY else HOLD
  }

  function DigitChar(d: int): char
    requires 0 <= d < 10
  {
    ('0' as int + d) as char
  }

  /** The decimal text of a natural number, as JavaScript prints it. */
  function NatToString(n: nat): string
    decreases n
  {
    if n < 10 then [DigitChar(n)] else NatToString(n / 10) + [DigitChar(n % 10)]
  }

  function IntToString(i: int): string {
    if i < 0 then "-" + NatToString(-i) else NatToString(i)
  }

  /** `"| " + segments + "-> " + word + " @ " + total + "/" + threshold`. */
  function StatusLine(es: seq<Entry>, total: int, threshold: int): (line: string)
    ensures "| " + Segments(es) <= line
    ensures "| " + Segments(es) + "-> " + SignWord(total) <= line
  {
    "| " + Segments(es) + "-> " + SignWord(total) + " @ " + IntToString(total) + "/" + IntToString(threshold)
  }

  /** The line holds one segment per wrapper, in order: it splits at any wrapper boundary. */
  lemma {:induction false} SegmentsAppend(a: seq<Entry>, b: seq<Entry>)
    ensures Segments(a + b) == Segments(a) + Segments(b)
    decreases |b|
  {
    if b == [] {
      assert a + b == a;
    } else {
      var init, last := b[..|b| - 1], b[|b| - 1];
      assert (a + b)[..|a + b| - 1] == a + init;
      assert (a + b)[|a + b| - 1] == last;
      assert Segments(a + b) == Segments(a + init) + Segment(last);
      assert Segments(b) == Segments(init) + Segment(last);
      SegmentsAppend(a, init);
    }
  }

  /** Reading the printed digits back gives the number. */
  lemma {:induction false} NatToStringRoundTrip(n: nat)
    ensures Options.IsDigits(NatToString(n))
    ensures Options.DigitsValue(NatToString(n)) == n
    decreases n
  {
    if n >= 10 {
      NatToStringRoundTrip(n / 10);
      var s := NatToString(n);
      assert s[..|s| - 1] == NatToString(n / 10);
    }
  }

  /** When the vote buys or sells, the report's word says the same. */
  lemma WordMatchesDecision(b: seq<Vote>)
    requires PositiveWeights(b) && b != []
    ensures Abs(Tally(b)) <= Possible(b)
    ensures var d := Decide(Tally(b), Possible(b));
      d.signal != Some(HOLD) ==> d.signal == Some(SignWord(Tally(b)))
  {
    DecisionRule(b);
  }

  /**
   * The word ignores the threshold: a total of 50 out of a possible 500
   * reports `buy` while the vote holds.
   */
  lemma WordIgnoresThreshold()
    ensures SignWord(50) == BUY
    ensures Decide(50, 500).signal == Some(HOLD)
  {
  }
}
