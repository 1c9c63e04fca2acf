/** The aggregator's shipped configuration (settings.js) and what it guarantees the engine. */
module Settings {
  import opened Results
  import Options
  import Cadence
  import Voting

  /** One algorithm's entry: period in minutes, vote weight, parameter strings, optional load hook. */
  datatype AlgSetting = AlgSetting(period: int, weight: int, params: seq<string>, onLoad: Option<string>)

  /** The enabled names, in order, and the settings table. */
  datatype Config = Config(algsEnabled: seq<string>, algSettings: map<string, AlgSetting>)

  const RsiParams: seq<string> :=
    ["rsi_periods = 16", "overbought_rsi = 82", "oversold_rsi = 26", "rsi_recover = 3",
     "rsi_drop = 0", "rsi_divisor = 2"]

  const MacdParams: seq<string> :=
    ["ema_short_period = 14", "ema_long_period = 23", "signal_period = 9",
     "up_trend_threshold = 0", "down_trend_threshold = 0", "overbought_rsi_periods = 21",
     "overbought_rsi = 70"]

  const TrendEmaParams: seq<string> :=
    ["trend_ema = 20", "neutral_rate = 0.06", "oversold_rsi_periods = 20", "oversold_rsi = 30"]

  const TrustDistrustParams: seq<string> :=
    ["sell_threshold = 2", "sell_threshold_max = 0", "sell_min = 1", "buy_threshold = 2",
     "buy_threshold_max = 0", "greed = 0"]

  const SarParams: seq<string> :=
    ["sar_af = 0.015", "sar_max_af = 0.1"]

  const SpeedParams: seq<string> :=
    ["baseline_periods = 5000", "trigger_factor = 2"]

  const ForexAnalyticsParams: seq<string> := ["modelfile = \"models/default_model.json\""]

  const Default: Config := Config(
    ["rsi", "macd", "trend_ema", "trust_distrust", "sar", "speed"],
    map[
      "rsi" := AlgSetting(15, 100, RsiParams, None),
      "macd" := AlgSetting(60, 100, MacdParams, None),
      "trend_ema" := AlgSetting(1, 100, TrendEmaParams, None),
      "trust_distrust" := AlgSetting(30, 100, TrustDistrustParams, None),
      "sar" := AlgSetting(2, 50, SarParams, None),
      "speed" := AlgSetting(1, 50, SpeedParams, None),
      "forex_analytics" := AlgSetting(30, 100, ForexAnalyticsParams,
        Some("this.data.options.period = \"30m\"; this.inst.getOptions(this.data)"))
    ])

  /** Every enabled name has a settings entry (so the lookup of `setupAlgs` is defined). */
  predicate EnabledConfigured(cfg: Config) {
    forall i :: 0 <= i < |cfg.algsEnabled| ==> cfg.algsEnabled[i] in cfg.algSettings
  }

  /** Every configured period and weight is a positive integer. */
  predicate PositiveSettings(cfg: Config) {
    forall k :: k in cfg.algSettings ==> cfg.algSettings[k].period > 0 && cfg.algSettings[k].weight > 0
  }

  /**
   * The sum of the configured weights of the given names. This is `sigPossible`
   * (`Voting.Possible`) read off the settings table rather than off a ballot of
   * wrappers, so the shipped threshold can be stated before any wrapper exists.
   */
  function WeightOf(cfg: Config, names: seq<string>): int
    requires forall i :: 0 <= i < |names| ==> names[i] in cfg.algSettings
  {
    if names == [] then 0 else cfg.algSettings[names[0]].weight + WeightOf(cfg, names[1..])
  }

  lemma DefaultEnabledConfigured()
    ensures EnabledConfigured(Default)
  {
  }

  lemma DefaultEnabledDistinct()
    ensures forall i, j :: 0 <= i < j < |Default.algsEnabled| ==> Default.algsEnabled[i] != Default.algsEnabled[j]
  {
  }

  /** Every period is positive and divides the counter bound, and every weight is positive. */
  lemma DefaultPeriodsAndWeights()
    ensures PositiveSettings(Default)
    ensures forall k :: k in Default.algSettings ==> Cadence.PeriodMax % Default.algSettings[k].period == 0
  {
  }

  /** The enabled weights sum to 500, so the default threshold is 250. */
  lemma DefaultThreshold()
    ensures EnabledConfigured(Default)
    ensures WeightOf(Default, Default.algsEnabled) == 500
    ensures Voting.CeilHalf(WeightOf(Default, Default.algsEnabled)) == 250
  {
    var en := Default.algsEnabled;
    assert WeightOf(Default, en[6..]) == 0;
    assert WeightOf(Default, en[5..]) == 50;
    assert WeightOf(Default, en[4..]) == 100;
    assert WeightOf(Default, en[3..]) == 200;
    assert WeightOf(Default, en[2..]) == 300;
    assert WeightOf(Default, en[1..]) == 400;
  }

  /** Only the disabled `forex_analytics` entry carries a load hook. */
  lemma DefaultHooks()
    ensures forall k :: k in Default.algSettings ==> (Default.algSettings[k].onLoad.Some? <==> k == "forex_analytics")
    ensures forall i :: 0 <= i < |Default.algsEnabled| ==> Default.algsEnabled[i] != "forex_analytics"
  {
  }

  /** Every parameter string of the list parses. */
  predicate AllParse(ps: seq<string>) {
    forall i :: 0 <= i < |ps| ==> Options.ParseParam(ps[i]).Ok?
  }

  /** `name = text` parses when the name is an identifier and the text a decimal literal. */
  lemma NumberParam(s: string, name: string, text: string)
    requires Options.IsName(name) && Options.IsNumber(text) && s == name + " = " + text
    ensures Options.ParseParam(s) == Ok(Options.Param(name, Options.NumLit(text)))
  {
    Options.ParseRender(Options.Param(name, Options.NumLit(text)));
  }

  /** `name = "text"` parses when the name is an identifier and the text has no quote or backslash. */
  lemma StringParam(s: string, name: string, text: string)
    requires Options.IsName(name) && Options.IsPlainText(text) && s == name + " = " + "\"" + text + "\""
    ensures Options.ParseParam(s) == Ok(Options.Param(name, Options.StrLit(text)))
  {
    var p := Options.Param(name, Options.StrLit(text));
    assert Options.WellFormedLiteral(p.lit);
    var quoted := "\"" + text + "\"";
    assert Options.LiteralText(p.lit) == quoted;
    assert Options.Render(p) == name + " = " + quoted;
    assert s == name + " = " + quoted;
    Options.ParseRender(p);
  }

  /** A whole part, a point and a fraction make a decimal literal. */
  lemma Decimal(t: string, whole: string, frac: string)
    requires Options.IsWhole(whole) && Options.IsDigits(frac) && t == whole + "." + frac
    ensures Options.IsNumber(t)
  {
    assert t[|whole|] == '.';
    assert forall j :: 0 <= j < |whole| ==> t[j] == whole[j];
    assert Options.IndexOf(t, '.') == Some(|whole|);
    assert t[..|whole|] == whole && t[|whole| + 1..] == frac;
  }

  /** Every name is an identifier. */
  predicate AllNames(names: seq<string>) {
    forall k :: 0 <= k < |names| ==> Options.IsName(names[k])
  }

  /** Every text is a decimal literal. */
  predicate AllNumbers(texts: seq<string>) {
    forall k :: 0 <= k < |texts| ==> Options.IsNumber(texts[k])
  }

  /** The k-th string of the list is `names[k] = texts[k]`. */
  predicate Rendered(ps: seq<string>, names: seq<string>, texts: seq<string>) {
    |names| == |ps| && |texts| == |ps| && forall k :: 0 <= k < |ps| ==> ps[k] == names[k] + " = " + texts[k]
  }

  /** A list of `identifier = number` strings all parse. */
  lemma NumberParams(ps: seq<string>, names: seq<string>, texts: seq<string>)
    requires AllNames(names) && AllNumbers(texts) && Rendered(ps, names, texts)
    ensures AllParse(ps)
  {
    forall k | 0 <= k < |ps|
      ensures Options.ParseParam(ps[k]).Ok?
    {
      NumberParam(ps[k], names[k], texts[k]);
    }
  }

  /*
   * Each shipped list below is restated as its names and its literal texts,
   * one pair per string. The split is there for the prover only: checking the
   * parser on the whole literal strings unrolls it character by character,
   * while the names, the texts and the `name = text` shape are each cheap to
   * check apart, and `NumberParams` (or `StringParam`) joins them.
   */
  const RsiNames: seq<string> := ["rsi_periods", "overbought_rsi", "oversold_rsi", "rsi_recover", "rsi_drop", "rsi_divisor"]
  const RsiTexts: seq<string> := ["16", "82", "26", "3", "0", "2"]

  lemma RsiNamesOk()
    ensures forall k :: 0 <= k < |RsiNames| ==> Options.IsName(RsiNames[k])
  {
  }

  lemma RsiTextsOk()
    ensures forall k :: 0 <= k < |RsiTexts| ==> Options.IsNumber(RsiTexts[k])
  {
  }

  lemma RsiShape()
    ensures |RsiNames| == |RsiParams| && |RsiTexts| == |RsiParams|
    ensures forall k :: 0 <= k < |RsiParams| ==> RsiParams[k] == RsiNames[k] + " = " + RsiTexts[k]
  {
  }

  lemma RsiParamsParse()
    ensures AllParse(RsiParams)
  {
    RsiNamesOk();
    RsiTextsOk();
    RsiShape();
    NumberParams(RsiParams, RsiNames, RsiTexts);
  }

  const MacdNames: seq<string> := ["ema_short_period", "ema_long_period", "signal_period", "up_trend_threshold", "down_trend_threshold", "overbought_rsi_periods", "overbought_rsi"]
  const MacdTexts: seq<string> := ["14", "23", "9", "0", "0", "21", "70"]

  lemma MacdNamesOk()
    ensures forall k :: 0 <= k < |MacdNames| ==> Options.IsName(MacdNames[k])
  {
  }

  lemma MacdTextsOk()
    ensures forall k :: 0 <= k < |MacdTexts| ==> Options.IsNumber(MacdTexts[k])
  {
  }

  lemma MacdShape()
    ensures |MacdNames| == |MacdParams| && |MacdTexts| == |MacdParams|
    ensures forall k :: 0 <= k < |MacdParams| ==> MacdParams[k] == MacdNames[k] + " = " + MacdTexts[k]
  {
  }

  lemma MacdParamsParse()
    ensures AllParse(MacdParams)
  {
    MacdNamesOk();
    MacdTextsOk();
    MacdShape();
    NumberParams(MacdParams, MacdNames, MacdTexts);
  }

  const TrendEmaNames: seq<string> := ["trend_ema", "neutral_rate", "oversold_rsi_periods", "oversold_rsi"]
  const TrendEmaTexts: seq<string> := ["20", "0.06", "20", "30"]

  lemma TrendEmaNamesOk()
    ensures forall k :: 0 <= k < |TrendEmaNames| ==> Options.IsName(TrendEmaNames[k])
  {
  }

  lemma TrendEmaTextsOk()
    ensures forall k :: 0 <= k < |TrendEmaTexts| ==> Options.IsNumber(TrendEmaTexts[k])
  {
    Decimal("0.06", "0", "06");
  }

  lemma TrendEmaShape()
    ensures |TrendEmaNames| == |TrendEmaParams| && |TrendEmaTexts| == |TrendEmaParams|
    ensures forall k :: 0 <= k < |TrendEmaParams| ==> TrendEmaParams[k] == TrendEmaNames[k] + " = " + TrendEmaTexts[k]
  {
  }

  lemma TrendEmaParamsParse()
    ensures AllParse(TrendEmaParams)
  {
    TrendEmaNamesOk();
    TrendEmaTextsOk();
    TrendEmaShape();
    NumberParams(TrendEmaParams, TrendEmaNames, TrendEmaTexts);
  }

  const TrustDistrustNames: seq<string> := ["sell_threshold", "sell_threshold_max", "sell_min", "buy_threshold", "buy_threshold_max", "greed"]
  const TrustDistrustTexts: seq<string> := ["2", "0", "1", "2", "0", "0"]

  lemma TrustDistrustNamesOk()
    ensures forall k :: 0 <= k < |TrustDistrustNames| ==> Options.IsName(TrustDistrustNames[k])
  {
  }

  lemma TrustDistrustTextsOk()
    ensures forall k :: 0 <= k < |TrustDistrustTexts| ==> Options.IsNumber(TrustDistrustTexts[k])
  {
  }

  lemma TrustDistrustShape()
    ensures |TrustDistrustNames| == |TrustDistrustParams| && |TrustDistrustTexts| == |TrustDistrustParams|
    ensures forall k :: 0 <= k < |TrustDistrustParams| ==> TrustDistrustParams[k] == TrustDistrustNames[k] + " = " + TrustDistrustTexts[k]
  {
  }

  lemma TrustDistrustParamsParse()
    ensures AllParse(TrustDistrustParams)
  {
    TrustDistrustNamesOk();
    TrustDistrustTextsOk();
    TrustDistrustShape();
    NumberParams(TrustDistrustParams, TrustDistrustNames, TrustDistrustTexts);
  }

  const SarNames: seq<string> := ["sar_af", "sar_max_af"]
  const SarTexts: seq<string> := ["0.015", "0.1"]

  lemma SarNamesOk()
    ensures forall k :: 0 <= k < |SarNames| ==> Options.IsName(SarNames[k])
  {
  }

  lemma SarTextsOk()
    ensures forall k :: 0 <= k < |SarTexts| ==> Options.IsNumber(SarTexts[k])
  {
    Decimal("0.015", "0", "015");
    Decimal("0.1", "0", "1");
  }

  lemma SarShape()
    ensures |SarNames| == |SarParams| && |SarTexts| == |SarParams|
    ensures forall k :: 0 <= k < |SarParams| ==> SarParams[k] == SarNames[k] + " = " + SarTexts[k]
  {
  }

  lemma SarParamsParse()
    ensures AllParse(SarParams)
  {
    SarNamesOk();
    SarTextsOk();
    SarShape();
    NumberParams(SarParams, SarNames, SarTexts);
  }

  const SpeedNames: seq<string> := ["baseline_periods", "trigger_factor"]
  const SpeedTexts: seq<string> := ["5000", "2"]

  lemma SpeedNamesOk()
    ensures forall k :: 0 <= k < |SpeedNames| ==> Options.IsName(SpeedNames[k])
  {
  }

  lemma SpeedTextsOk()
    ensures forall k :: 0 <= k < |SpeedTexts| ==> Options.IsNumber(SpeedTexts[k])
  {
  }

  lemma SpeedShape()
    ensures |SpeedNames| == |SpeedParams| && |SpeedTexts| == |SpeedParams|
    ensures forall k :: 0 <= k < |SpeedParams| ==> SpeedParams[k] == SpeedNames[k] + " = " + SpeedTexts[k]
  {
  }

  lemma SpeedParamsParse()
    ensures AllParse(SpeedParams)
  {
    SpeedNamesOk();
    SpeedTextsOk();
    SpeedShape();
    NumberParams(SpeedParams, SpeedNames, SpeedTexts);
  }

  const ForexAnalyticsText: string := "models/default_model.json"

  lemma ForexAnalyticsTextOk()
    ensures Options.IsPlainText(ForexAnalyticsText)
  {
  }

  const ForexAnalyticsQuoted: string := "\"models/default_model.json\""

  lemma ForexAnalyticsQuotes()
    ensures ForexAnalyticsQuoted == "\"" + ForexAnalyticsText + "\""
  {
  }

  lemma ForexAnalyticsShape()
    ensures |ForexAnalyticsParams| == 1
    ensures ForexAnalyticsParams[0] == "modelfile" + " = " + ForexAnalyticsQuoted
  {
  }

  lemma ForexAnalyticsParamsParse()
    ensures AllParse(ForexAnalyticsParams)
  {
    ForexAnalyticsTextOk();
    ForexAnalyticsQuotes();
    ForexAnalyticsShape();
    StringParam(ForexAnalyticsParams[0], "modelfile", ForexAnalyticsText);
  }

  /** Every shipped parameter string has the form `identifier = number` or `identifier = "string"`. */
  lemma DefaultParamsParse()
    ensures forall k :: k in Default.algSettings ==> AllParse(Default.algSettings[k].params)
  {
    RsiParamsParse();
    MacdParamsParse();
    TrendEmaParamsParse();
    TrustDistrustParamsParse();
    SarParamsParse();
    SpeedParamsParse();
    ForexAnalyticsParamsParse();
  }
}
