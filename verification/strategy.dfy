/**
 * The aggregator engine of strategy.js: the strategy wrappers, the registry
 * built by `setupAlgs`, the cadence multiplexer (`onPeriod`), the vote
 * (`calculateThreshold`, `processSignals`) and the report (`onReport`), as
 * objects whose fields each call updates in place.
 */
module Strategy {
  import opened Results
  import opened Options
  import opened Settings
  import opened Cadence
  import opened Voting
  import opened Report

  /** A period descriptor, bar or trade of the host: a record of named values. */
  type Record = map<string, Value>

  /** The host's shared context `s`, as far as the engine reads and writes it. */
  class Context {
    var inPreroll: bool
    var options: map<string, Value>
    var period: Record
    var lookback: seq<Record>
    var myTrades: seq<Record>
    var signal: Option<string>
  }

  /** The signal a wrapper keeps after its sub-strategy ran: `hold` when it left none. */
  function SignalOf(produced: Option<string>): string {
    match produced
    case None => HOLD
    case Some(x) => x
  }

  /**
   * `StrategyWrapper`: one sub-strategy with its cadence, vote weight, parsed
   * parameters, current signal and the private `data` record it is run on.
   */
  class Wrapper {
    const name: string
    const period: int
    const weight: int
    const params: seq<Param>
    var signal: string
    var dataOptions: map<string, Value>
    var dataPeriod: Record
    var dataLookback: seq<Record>
    var dataMyTrades: seq<Record>

    constructor (name: string, period: int, weight: int, params: seq<Param>)
      ensures this.name == name && this.period == period && this.weight == weight && this.params == params
      ensures signal == HOLD
      ensures dataOptions == Overlay(map[], params)
      ensures dataPeriod == map[] && dataLookback == [] && dataMyTrades == []
    {
      this.name := name;
      this.period := period;
      this.weight := weight;
      this.params := params;
      signal := HOLD;
      dataOptions := map[];
      dataPeriod := map[];
      dataLookback := [];
      dataMyTrades := [];
      new;
      CopyLocalOptions();
    }

    /** `copyLocalOptions`: writes every parameter into the data record's options, in order. */
    method CopyLocalOptions()
      modifies this`dataOptions
      ensures dataOptions == Overlay(old(dataOptions), params)
    {
      var i := 0;
      while i < |params|
        invariant 0 <= i <= |params|
        invariant Overlay(dataOptions, params[i..]) == Overlay(old(dataOptions), params)
      {
        assert params[i..][1..] == params[i + 1..];
        dataOptions := dataOptions[params[i].name := Eval(params[i].lit)];
        i := i + 1;
      }
      assert params[i..] == [];
    }

    /**
     * `copyData`: refreshes the data record from the shared context, with the
     * wrapper's own parameters over the shared options.  The shared options are
     * copied, not aliased (see `AliasedPass` for the aliasing of the original).
     */
    method CopyData(s: Context)
      modifies this`dataOptions, this`dataPeriod, this`dataLookback, this`dataMyTrades
      ensures dataOptions == Overlay(s.options, params)
      ensures dataPeriod == s.period && dataLookback == s.lookback && dataMyTrades == s.myTrades
    {
      dataOptions := s.options;
      CopyLocalOptions();
      dataPeriod := s.period;
      dataLookback := s.lookback;
      dataMyTrades := s.myTrades;
    }

    /**
     * `onPeriod`: the sub-strategy leaves `produced` in `data.signal`; the
     * wrapper keeps it, or `hold` when it is null.
     */
    method OnPeriod(produced: Option<string>)
      modifies this`signal
      ensures signal == SignalOf(produced)
      ensures produced.None? ==> signal == HOLD
    {
      signal := SignalOf(produced);
    }
  }

  /**
   * `copyData` as the original writes it: `data.options` becomes the shared
   * `s.options` object itself, so each wrapper's parameters are written into
   * the shared map and every wrapper's data record is that one map.  This is
   * that map after a calculate pass over wrappers with these parameter lists.
   */
  function AliasedPass(shared: map<string, Value>, lists: seq<seq<Param>>): (r: map<string, Value>)
    ensures shared.Keys <= r.Keys
    decreases |lists|
  {
    if lists == [] then shared else AliasedPass(Overlay(shared, lists[0]), lists[1..])
  }

  function Flatten(lists: seq<seq<Param>>): seq<Param>
    decreases |lists|
  {
    if lists == [] then [] else lists[0] + Flatten(lists[1..])
  }

  /** Under aliasing, every wrapper sees all wrappers' parameters, the last writer winning. */
  lemma {:induction false} AliasedPassFlattens(shared: map<string, Value>, lists: seq<seq<Param>>)
    ensures AliasedPass(shared, lists) == Overlay(shared, Flatten(lists))
    decreases |lists|
  {
    if lists != [] {
      AliasedPassFlattens(Overlay(shared, lists[0]), lists[1..]);
      OverlayAppend(shared, lists[0], Flatten(lists[1..]));
    }
  }

  /**
   * The shipped `rsi` (`overbought_rsi = 82`) and `macd` (`overbought_rsi = 70`)
   * share an option name: under aliasing, `rsi`'s data record holds 70 when its
   * `onPeriod` runs, while its own copied view holds 82.
   */
  lemma AliasingLeaks()
    ensures var rsi := [Param("overbought_rsi", NumLit("82"))];
      var macd := [Param("overbought_rsi", NumLit("70"))];
      && "overbought_rsi" in AliasedPass(map[], [rsi, macd])
      && AliasedPass(map[], [rsi, macd])["overbought_rsi"] == Num(70.0)
      && "overbought_rsi" in Overlay(map[], rsi)
      && Overlay(map[], rsi)["overbought_rsi"] == Num(82.0)
  {
    var rsi: seq<Param> := [Param("overbought_rsi", NumLit("82"))];
    var macd: seq<Param> := [Param("overbought_rsi", NumLit("70"))];
    var empty: map<string, Value> := map[];
    assert IndexOf("82", '.') == None;
    assert IndexOf("70", '.') == None;
    assert DigitsValue("82") == 82 by { assert "82"[..1] == "8"; }
    assert DigitsValue("70") == 70 by { assert "70"[..1] == "7"; }
    var once := Overlay(empty, rsi);
    var both: seq<seq<Param>> := [rsi, macd];
    var tail: seq<seq<Param>> := [macd];
    assert both[1..] == tail && |tail[1..]| == 0;
    assert AliasedPass(empty, both) == AliasedPass(once, tail);
    assert AliasedPass(once, tail) == Overlay(once, macd);
    assert |rsi[1..]| == 0 && |macd[1..]| == 0;
    assert once == empty["overbought_rsi" := Eval(rsi[0].lit)];
    assert Overlay(once, macd) == once["overbought_rsi" := Eval(macd[0].lit)];
  }

  /** A log entry for one vote notice printed by `printSignalForEach`. */
  datatype Notice = Notice(signal: Option<string>, pct: Pct, magnitude: int, threshold: int)

  /** Why `setupAlgs` stopped: no settings entry, no such sub-strategy, or a malformed parameter. */
  datatype SetupError =
    | MissingSettings(name: string)
    | LoadError(name: string)
    | BadParam(name: string, error: ConfigError)

  predicate Distinct(names: seq<string>) {
    forall i, j :: 0 <= i < j < |names| ==> names[i] != names[j]
  }

  function Names(ws: seq<Wrapper>): seq<string> {
    seq(|ws|, i requires 0 <= i < |ws| => ws[i].name)
  }

  /** The wrappers' weights and current signals, in registry order. */
  function BallotOf(ws: seq<Wrapper>): seq<Vote>
    reads ws
  {
    seq(|ws|, i requires 0 <= i < |ws| reads ws => Vote(ws[i].weight, ws[i].signal))
  }

  /** The wrappers' names and current signals, in registry order. */
  function EntriesOf(ws: seq<Wrapper>): seq<Entry>
    reads ws
  {
    seq(|ws|, i requires 0 <= i < |ws| reads ws => Entry(ws[i].name, ws[i].signal))
  }

  /** Parses every parameter string of a settings entry, stopping at the first error. */
  function ParseAll(raw: seq<string>): Result<seq<Param>, ConfigError> {
    if raw == [] then Ok([])
    else match ParseParam(raw[0])
      case Err(e) => Err(e)
      case Ok(p) =>
        match ParseAll(raw[1..])
        case Err(e) => Err(e)
        case Ok(ps) => Ok([p] + ps)
  }

  lemma {:induction false} AllParseOk(raw: seq<string>)
    requires AllParse(raw)
    ensures ParseAll(raw).Ok?
  {
    if raw != [] {
      assert Options.ParseParam(raw[0]).Ok?;
      AllParseOk(raw[1..]);
    }
  }

  /**
   * Creating the wrapper of a name not yet registered: its settings entry and
   * parsed parameters, or the error that aborts `setupAlgs`.  `loadable` names
   * the sub-strategies that can be loaded.
   */
  function Admit(name: string, cfg: Config, loadable: set<string>): Result<(AlgSetting, seq<Param>), SetupError> {
    if name !in cfg.algSettings then Err(MissingSettings(name))
    else if name !in loadable then Err(LoadError(name))
    else match ParseAll(cfg.algSettings[name].params)
      case Err(e) => Err(BadParam(name, e))
      case Ok(ps) => Ok((cfg.algSettings[name], ps))
  }

  /** How a name not yet registered is admitted: its settings and parameters, or an error. */
  type Admission = string -> Result<(AlgSetting, seq<Param>), SetupError>

  /** Admission as `setupAlgs` does it, against a configuration and the loadable sub-strategies. */
  function AdmitIn(cfg: Config, loadable: set<string>): Admission {
    name => Admit(name, cfg, loadable)
  }

  /**
   * `setupAlgs` on the registry's names: every enabled name not yet registered
   * is created and appended, until the first error.
   */
  function SetupRun(names: seq<string>, enabled: seq<string>, admit: Admission): (r: (seq<string>, Option<SetupError>))
    ensures |r.0| <= |names| + |enabled|
    decreases |enabled|
  {
    if enabled == [] then (names, None)
    else if enabled[0] in names then SetupRun(names, enabled[1..], admit)
    else match admit(enabled[0])
      case Err(e) => (names, Some(e))
      case Ok(_) => SetupRun(names + [enabled[0]], enabled[1..], admit)
  }

  /** Setup only appends: registered names are never re-created or dropped. */
  lemma {:induction false} SetupRunExtends(names: seq<string>, enabled: seq<string>, admit: Admission)
    ensures var r := SetupRun(names, enabled, admit).0;
      |names| <= |r| && r[..|names|] == names
    decreases |enabled|
  {
    if enabled != [] {
      if enabled[0] in names {
        SetupRunExtends(names, enabled[1..], admit);
      } else if admit(enabled[0]).Ok? {
        SetupRunExtends(names + [enabled[0]], enabled[1..], admit);
        var r := SetupRun(names + [enabled[0]], enabled[1..], admit).0;
        assert r[..|names|] == r[..|names| + 1][..|names|];
      }
    }
  }

  /** Setup registers each name at most once. */
  lemma {:induction false} SetupRunDistinct(names: seq<string>, enabled: seq<string>, admit: Admission)
    requires Distinct(names)
    ensures Distinct(SetupRun(names, enabled, admit).0)
    decreases |enabled|
  {
    if enabled != [] {
      if enabled[0] in names {
        SetupRunDistinct(names, enabled[1..], admit);
      } else if admit(enabled[0]).Ok? {
        SetupRunDistinct(names + [enabled[0]], enabled[1..], admit);
      }
    }
  }

  /** A setup that reports no error has registered every enabled name. */
  lemma {:induction false} SetupRunCovers(names: seq<string>, enabled: seq<string>, admit: Admission)
    ensures var r := SetupRun(names, enabled, admit);
      r.1.None? ==> forall i :: 0 <= i < |enabled| ==> enabled[i] in r.0
    ensures forall i :: 0 <= i < |names| ==> names[i] in SetupRun(names, enabled, admit).0
    decreases |enabled|
  {
    if enabled != [] {
      var rest := enabled[1..];
      if enabled[0] in names {
        SetupRunCovers(names, rest, admit);
        assert forall i :: 1 <= i < |enabled| ==> enabled[i] == rest[i - 1];
      } else if admit(enabled[0]).Ok? {
        SetupRunCovers(names + [enabled[0]], rest, admit);
        assert forall i :: 1 <= i < |enabled| ==> enabled[i] == rest[i - 1];
        assert forall i :: 0 <= i < |names| ==> names[i] == (names + [enabled[0]])[i];
        assert enabled[0] == (names + [enabled[0]])[|names|];
      }
    }
  }

  /** Registering one new, admissible name and going on with the rest. */
  lemma SetupRunStep(names: seq<string>, enabled: seq<string>, admit: Admission)
    requires enabled != [] && enabled[0] !in names && admit(enabled[0]).Ok?
    ensures SetupRun(names, enabled, admit) == SetupRun(names + [enabled[0]], enabled[1..], admit)
  {
  }

  /** When every enabled name is new, distinct and admissible, all are registered, in order. */
  lemma {:induction false} SetupRunAdmitsAll(names: seq<string>, enabled: seq<string>, admit: Admission)
    requires Distinct(enabled)
    requires forall i :: 0 <= i < |enabled| ==> enabled[i] !in names && admit(enabled[i]).Ok?
    ensures SetupRun(names, enabled, admit) == (names + enabled, None)
    decreases |enabled|
  {
    if enabled == [] {
      assert names + enabled == names;
    } else {
      var first, rest := enabled[0], enabled[1..];
      SetupRunStep(names, enabled, admit);
      forall i, j | 0 <= i < j < |rest|
        ensures rest[i] != rest[j]
      {
        assert rest[i] == enabled[i + 1] && rest[j] == enabled[j + 1];
      }
      forall i | 0 <= i < |rest|
        ensures rest[i] !in names + [first] && admit(rest[i]).Ok?
      {
        assert rest[i] == enabled[i + 1] && first != enabled[i + 1];
      }
      SetupRunAdmitsAll(names + [first], rest, admit);
      assert names + [first] + rest == names + enabled;
    }
  }

  /** The shipped configuration registers its six enabled algorithms, in order, without error. */
  lemma DefaultSetup(loadable: set<string>)
    requires forall i :: 0 <= i < |Default.algsEnabled| ==> Default.algsEnabled[i] in loadable
    ensures SetupRun([], Default.algsEnabled, AdmitIn(Default, loadable)) == (Default.algsEnabled, None)
  {
    DefaultParamsParse();
    DefaultEnabledDistinct();
    forall i | 0 <= i < |Default.algsEnabled|
      ensures AdmitIn(Default, loadable)(Default.algsEnabled[i]).Ok?
    {
      AllParseOk(Default.algSettings[Default.algsEnabled[i]].params);
    }
    SetupRunAdmitsAll([], Default.algsEnabled, AdmitIn(Default, loadable));
    assert [] + Default.algsEnabled == Default.algsEnabled;
  }

  /** A wrapper as `setupAlgs` creates it from the configuration. */
  ghost predicate Configured(w: Wrapper, cfg: Config)
    reads w
  {
    && w.name in cfg.algSettings
    && w.period == cfg.algSettings[w.name].period
    && w.weight == cfg.algSettings[w.name].weight
    && ParseAll(cfg.algSettings[w.name].params) == Ok(w.params)
    && w.signal == HOLD
    && w.dataOptions == Overlay(map[], w.params)
    && w.dataPeriod == map[] && w.dataLookback == [] && w.dataMyTrades == []
  }

  /**
   * The aggregator: the registry `algs` (in insertion order) and the
   * module-level counters and signal state of strategy.js.
   */
  class Engine {
    var wrappers: seq<Wrapper>
    var periodTick: int
    var sigTotal: int
    var sigPossible: int
    var sigThreshold: int
    var sigOld: Option<string>
    var pctOld: Option<Pct>
    /** The vote notices printed so far. */
    ghost var notices: seq<Notice>

    ghost predicate Valid()
      reads this`wrappers, this`periodTick
    {
      && 0 <= periodTick <= PeriodMax
      && Distinct(Names(wrappers))
      && (forall i, j :: 0 <= i < j < |wrappers| ==> wrappers[i] != wrappers[j])
      && (forall i :: 0 <= i < |wrappers| ==> wrappers[i].period > 0 && wrappers[i].weight > 0)
    }

    ghost function Ballot(): seq<Vote>
      reads this`wrappers, wrappers
    {
      BallotOf(wrappers)
    }

    /** The counters `calculateThreshold` and the tally loop leave behind. */
    ghost predicate Counted()
      reads this`wrappers, wrappers, this`sigTotal, this`sigPossible, this`sigThreshold
    {
      && sigPossible == Possible(Ballot())
      && sigThreshold == CeilHalf(sigPossible)
      && sigTotal == Tally(Ballot())
      && Abs(sigTotal) <= sigPossible
    }

    /** The shared context after the decision, from its earlier signal and options. */
    ghost predicate Decided(s: Context, signal0: Option<string>, options0: map<string, Value>)
      reads this`sigTotal, this`sigPossible, s
    {
      && Abs(sigTotal) <= sigPossible
      && var d := Decide(sigTotal, sigPossible);
      && s.signal == (if d.signal.Some? then d.signal else signal0)
      && s.options == WritePct(options0, d)
    }

    /** The recorded decision and the notices after the decision was announced. */
    ghost predicate Noticed(s: Context, sigOld0: Option<string>, pctOld0: Option<Pct>, notices0: seq<Notice>)
      reads this`sigTotal, this`sigPossible, this`sigThreshold, this`sigOld, this`pctOld, this`notices, s
    {
      && Abs(sigTotal) <= sigPossible
      && var pct := Decide(sigTotal, sigPossible).pct;
      && sigOld == s.signal
      && pctOld == Some(pct)
      && notices == notices0 +
           (if Changed(sigOld0, pctOld0, s.signal, pct)
            then [Notice(s.signal, pct, Abs(sigTotal), sigThreshold)] else [])
    }

    /** The whole state `processSignals` leaves behind. */
    ghost predicate Voted(s: Context, signal0: Option<string>, options0: map<string, Value>,
                          sigOld0: Option<string>, pctOld0: Option<Pct>, notices0: seq<Notice>)
      reads this, wrappers, s
    {
      Counted() && Decided(s, signal0, options0) && Noticed(s, sigOld0, pctOld0, notices0)
    }

    constructor ()
      ensures Valid() && wrappers == [] && periodTick == 0
      ensures sigTotal == 0 && sigPossible == 0 && sigThreshold == 0
      ensures sigOld == None && pctOld == None && notices == []
    {
      wrappers := [];
      periodTick := 0;
      sigTotal, sigPossible, sigThreshold := 0, 0, 0;
      sigOld, pctOld := None, None;
      notices := [];
    }

    /**
     * `setupAlgs`: creates a wrapper for each enabled name not yet registered,
     * in order, and stops at the first error.
     */
    method Setup(cfg: Config, loadable: set<string>) returns (err: Option<SetupError>)
      requires Valid() && PositiveSettings(cfg)
      modifies this`wrappers
      ensures Valid()
      ensures |old(wrappers)| <= |wrappers| && wrappers[..|old(wrappers)|] == old(wrappers)
      ensures (Names(wrappers), err) == SetupRun(Names(old(wrappers)), cfg.algsEnabled, AdmitIn(cfg, loadable))
      ensures forall i :: |old(wrappers)| <= i < |wrappers| ==> fresh(wrappers[i]) && Configured(wrappers[i], cfg)
    {
      var k := 0;
      while k < |cfg.algsEnabled|
        invariant 0 <= k <= |cfg.algsEnabled|
        invariant Valid()
        invariant |old(wrappers)| <= |wrappers| && wrappers[..|old(wrappers)|] == old(wrappers)
        invariant SetupRun(Names(wrappers), cfg.algsEnabled[k..], AdmitIn(cfg, loadable))
               == SetupRun(Names(old(wrappers)), cfg.algsEnabled, AdmitIn(cfg, loadable))
        invariant forall i :: |old(wrappers)| <= i < |wrappers| ==> fresh(wrappers[i]) && Configured(wrappers[i], cfg)
      {
        var name := cfg.algsEnabled[k];
        assert cfg.algsEnabled[k..][1..] == cfg.algsEnabled[k + 1..];
        if name !in Names(wrappers) {
          var admitted := Admit(name, cfg, loadable);
          assert AdmitIn(cfg, loadable)(name) == admitted;
          if admitted.Err? {
            return Some(admitted.error);
          }
          var setting := admitted.value.0;
          var w := new Wrapper(name, setting.period, setting.weight, admitted.value.1);
          Register(w);
        }
        k := k + 1;
      }
      return None;
    }

    /** `algs[strategy] = this`: appends a wrapper under a name not yet registered. */
    method Register(w: Wrapper)
      requires Valid() && w.name !in Names(wrappers) && w !in wrappers && w.period > 0 && w.weight > 0
      modifies this`wrappers
      ensures Valid() && wrappers == old(wrappers) + [w]
      ensures Names(wrappers) == Names(old(wrappers)) + [w.name]
    {
      assert Names(wrappers + [w]) == Names(wrappers) + [w.name];
      wrappers := wrappers + [w];
    }

    /**
     * The container's `calculate`: every wrapper refreshes its data record from
     * the shared context (the sub-strategies' own calculations are not modelled).
     */
    method Calculate(s: Context)
      requires Valid()
      modifies wrappers`dataOptions, wrappers`dataPeriod, wrappers`dataLookback, wrappers`dataMyTrades
      ensures forall i :: 0 <= i < |wrappers| ==>
        && wrappers[i].dataOptions == Overlay(s.options, wrappers[i].params)
        && wrappers[i].dataPeriod == s.period
        && wrappers[i].dataLookback == s.lookback
        && wrappers[i].dataMyTrades == s.myTrades
    {
      var i := 0;
      while i < |wrappers|
        invariant 0 <= i <= |wrappers|
        invariant forall j :: 0 <= j < i ==>
          && wrappers[j].dataOptions == Overlay(s.options, wrappers[j].params)
          && wrappers[j].dataPeriod == s.period
          && wrappers[j].dataLookback == s.lookback
          && wrappers[j].dataMyTrades == s.myTrades
      {
        wrappers[i].CopyData(s);
        i := i + 1;
      }
    }

    /** `calculateThreshold`: the total weight and half of it, rounded up. */
    method CalculateThreshold()
      modifies this`sigPossible, this`sigThreshold
      ensures sigPossible == Possible(Ballot())
      ensures sigThreshold == CeilHalf(sigPossible)
    {
      sigPossible := 0;
      ghost var b := Ballot();
      var i := 0;
      while i < |wrappers|
        invariant 0 <= i <= |wrappers|
        invariant sigPossible == Possible(b[..i])
      {
        assert b[..i + 1][..i] == b[..i];
        sigPossible := sigPossible + wrappers[i].weight;
        i := i + 1;
      }
      assert b[..i] == b;
      sigThreshold := CeilHalf(sigPossible);
    }

    /** The tally loop of `processSignals`: the signed sum of the weights. */
    method CountVotes()
      modifies this`sigTotal
      ensures sigTotal == Tally(Ballot())
    {
      sigTotal := 0;
      ghost var b := Ballot();
      var i := 0;
      while i < |wrappers|
        invariant 0 <= i <= |wrappers|
        invariant sigTotal == Tally(b[..i])
      {
        assert b[..i + 1][..i] == b[..i];
        if wrappers[i].signal == SELL {
          sigTotal := sigTotal - wrappers[i].weight;
        } else if wrappers[i].signal == BUY {
          sigTotal := sigTotal + wrappers[i].weight;
        }
        i := i + 1;
      }
      assert b[..i] == b;
    }

    /**
     * `processSignals`: tallies the wrappers' signals, writes the decision and
     * its percentage into the shared context, and records a notice when the
     * decision or percentage changed.
     */
    method ProcessSignals(s: Context)
      requires Valid()
      modifies this`sigTotal, this`sigPossible, this`sigThreshold, this`sigOld, this`pctOld, this`notices
      modifies s`signal, s`options
      ensures Voted(s, old(s.signal), old(s.options), old(sigOld), old(pctOld), old(notices))
    {
      Count();
      var pct := ApplyDecision(s);
      RecordNotice(s, pct);
    }

    /** The counting half of `processSignals`: the threshold, then the tally. */
    method Count()
      requires Valid()
      modifies this`sigTotal, this`sigPossible, this`sigThreshold
      ensures Counted()
    {
      CalculateThreshold();
      CountVotes();
      assert PositiveWeights(Ballot());
      TallyBound(Ballot());
    }

    /**
     * The decision half of `processSignals`: the signal and, past the
     * threshold, the rounded percentage written into the shared context.
     */
    method ApplyDecision(s: Context) returns (pct: Pct)
      requires Abs(sigTotal) <= sigPossible && sigThreshold == CeilHalf(sigPossible)
      modifies s`signal, s`options
      ensures pct == Decide(sigTotal, sigPossible).pct
      ensures Decided(s, old(s.signal), old(s.options))
    {
      pct := Pct(0);
      var magnitude := Abs(sigTotal);
      if magnitude >= sigThreshold {
        pct := RoundPct(magnitude, sigPossible);
        if sigTotal > 0 {
          s.signal := Some(BUY);
          s.options := s.options["buy_pct" := Num(pct.n as real)];
        } else if sigTotal < 0 {
          s.signal := Some(SELL);
          s.options := s.options["sell_pct" := Num(pct.n as real)];
        }
      } else {
        s.signal := Some(HOLD);
      }
    }

    /**
     * The notice half of `processSignals`: when the signal or percentage
     * differs from the recorded one, a notice is printed and both are recorded.
     */
    method RecordNotice(s: Context, pct: Pct)
      requires Abs(sigTotal) <= sigPossible && pct == Decide(sigTotal, sigPossible).pct
      modifies this`sigOld, this`pctOld, this`notices
      ensures Noticed(s, old(sigOld), old(pctOld), old(notices))
    {
      if Changed(sigOld, pctOld, s.signal, pct) {
        notices := notices + [Notice(s.signal, pct, Abs(sigTotal), sigThreshold)];
        sigOld := s.signal;
        pctOld := Some(pct);
      }
    }

    /**
     * The container's `onPeriod`: nothing during preroll; otherwise the wrappers
     * due on this tick take the signal their sub-strategy produced (`produced[i]`
     * for wrapper i), the counter advances or wraps, and the vote runs.
     */
    method OnPeriod(s: Context, produced: seq<Option<string>>)
      requires Valid() && |produced| == |wrappers|
      modifies this`periodTick, this`sigTotal, this`sigPossible, this`sigThreshold
      modifies this`sigOld, this`pctOld, this`notices, wrappers`signal, s`signal, s`options
      ensures Valid()
      ensures old(s.inPreroll) ==>
        && periodTick == old(periodTick) && sigTotal == old(sigTotal)
        && sigPossible == old(sigPossible) && sigThreshold == old(sigThreshold)
        && sigOld == old(sigOld) && pctOld == old(pctOld) && notices == old(notices)
        && s.signal == old(s.signal) && s.options == old(s.options)
        && forall i :: 0 <= i < |wrappers| ==> wrappers[i].signal == old(wrappers[i].signal)
      ensures !old(s.inPreroll) ==>
        && periodTick == NextTick(old(periodTick))
        && (forall i :: 0 <= i < |wrappers| ==>
              wrappers[i].signal == if Fires(old(periodTick), wrappers[i].period)
                                    then SignalOf(produced[i]) else old(wrappers[i].signal))
        && Voted(s, old(s.signal), old(s.options), old(sigOld), old(pctOld), old(notices))
    {
      if s.inPreroll {
        return;
      }
      Tick(produced);
      ProcessSignals(s);
    }

    /** The divider of `onPeriod`: the due wrappers fire, then the counter advances or wraps. */
    method Tick(produced: seq<Option<string>>)
      requires Valid() && |produced| == |wrappers|
      modifies this`periodTick, wrappers`signal
      ensures Valid()
      ensures periodTick == NextTick(old(periodTick))
      ensures forall i :: 0 <= i < |wrappers| ==>
        wrappers[i].signal == if Fires(old(periodTick), wrappers[i].period)
                              then SignalOf(produced[i]) else old(wrappers[i].signal)
    {
      if periodTick < PeriodMax {
        RunDue(produced);
        periodTick := periodTick + 1;
      } else {
        periodTick := 0;
      }
    }

    /** The wrappers due on the current tick take their sub-strategy's signal. */
    method RunDue(produced: seq<Option<string>>)
      requires Valid() && |produced| == |wrappers|
      modifies wrappers`signal
      ensures forall i :: 0 <= i < |wrappers| ==>
        wrappers[i].signal == if Fires(periodTick, wrappers[i].period)
                              then SignalOf(produced[i]) else old(wrappers[i].signal)
    {
      var i := 0;
      while i < |wrappers|
        invariant 0 <= i <= |wrappers|
        invariant forall j :: 0 <= j < i ==>
          wrappers[j].signal == if Fires(periodTick, wrappers[j].period)
                                then SignalOf(produced[j]) else old(wrappers[j].signal)
        invariant forall j :: i <= j < |wrappers| ==> wrappers[j].signal == old(wrappers[j].signal)
      {
        if periodTick < PeriodMax && periodTick % wrappers[i].period == 0 {
          wrappers[i].OnPeriod(produced[i]);
        }
        i := i + 1;
      }
    }

    /** The per-wrapper part of `onReport`: one `name:X | ` segment per wrapper, in order. */
    method Columns() returns (col: string)
      ensures col == "| " + Segments(EntriesOf(wrappers))
    {
      col := "| ";
      ghost var es := EntriesOf(wrappers);
      var i := 0;
      while i < |wrappers|
        invariant 0 <= i <= |wrappers|
        invariant col == "| " + Segments(es[..i])
      {
        assert es[..i + 1][..i] == es[..i];
        var code := 'H';
        if wrappers[i].signal == BUY {
          code := 'B';
        } else if wrappers[i].signal == SELL {
          code := 'S';
        }
        var segment := wrappers[i].name + ":" + [code] + " | ";
        assert segment == Segment(es[i]);
        col := col + segment;
        i := i + 1;
      }
      assert es[..i] == es;
    }

    /** The container's `onReport`: the status line, as a one-element list. */
    method OnReport() returns (lines: seq<string>)
      ensures lines == [StatusLine(EntriesOf(wrappers), sigTotal, sigThreshold)]
    {
      var col := Columns();
      col := col + "-> ";
      if sigTotal < 0 {
        col := col + SELL;
      } else if sigTotal > 0 {
        col := col + BUY;
      } else {
        col := col + HOLD;
      }
      col := col + " @ " + IntToString(sigTotal) + "/" + IntToString(sigThreshold);
      lines := [col];
    }
  }

  /**
   * Two votes with no signal change in between print no more notices than
   * one: the second vote repeats the recorded signal and percentage.
   */
  method RepeatedVoteIsQuiet(e: Engine, s: Context)
    requires e.Valid() && e.wrappers != []
    modifies e`sigTotal, e`sigPossible, e`sigThreshold, e`sigOld, e`pctOld, e`notices
    modifies s`signal, s`options
    ensures e.pctOld.Some?
    ensures |e.notices| == |old(e.notices)| + if Changed(old(e.sigOld), old(e.pctOld), e.sigOld, e.pctOld.value) then 1 else 0
  {
    e.ProcessSignals(s);
    ghost var b := e.Ballot();
    ghost var once := e.notices;
    assert PositiveWeights(b);
    DecisionRule(b);
    PctBounds(b);
    ghost var d := Decide(Tally(b), Possible(b));
    assert d.pct.Pct? && e.sigOld == d.signal && e.pctOld == Some(d.pct);
    e.ProcessSignals(s);
    assert e.Ballot() == b;
    assert !Changed(d.signal, Some(d.pct), s.signal, d.pct);
  }
}
