# Aggregator trading strategy: a Dafny model

AggregatorTrader is a zenbot strategy that does not trade on its own signal.
It wraps several sub-strategies (`rsi`, `macd`, `trend_ema`, ...). Each one
runs on its own cadence, counted by one shared minute counter, and their
buy/sell/hold signals are combined into one weighted-majority decision with a
trade percentage. This project models that engine (`strategy.js`) and its
shipped configuration (`settings.js`) and proves what they promise.

Modules:

- `Results`: `Option` and `Result`.
- `Options`: option values (number or string).
  - The `identifier = literal` parameter strings: their parser, the printer, and the round trip between them.
  - How a wrapper's parameters are written over an option map (`copyLocalOptions`).
- `Settings`: the `algsEnabled` list and the `algSettings` table as constants. Lemmas show that the table meets the engine's needs.
- `Cadence`: the counter `periodTick` with bound `periodMax = 120`, and the rule saying which wrappers fire on a call.
- `Voting`: the vote as functions of the wrappers' weights and signals.
  - `sigPossible`, `sigThreshold`, `sigTotal`.
  - The decision and its rounded percentage.
  - The change test that decides whether a notice is printed.
- `Report`: the status line of `onReport`.
- `Strategy`: the engine itself, as objects updated in place.
  - `Context` is the host's `s`.
  - `Wrapper` is `StrategyWrapper`.
  - `Engine` holds the registry `algs` and the module-level counters.
  - Each method is proved against the functions of `Voting`, `Cadence`, `Options` and `Report`.

The registry `algs` is keyed by name and iterated with `for…in`. It is
modelled as a sequence of wrappers whose names are distinct, in insertion
order. Names are treated as plain distinct strings; the JavaScript object
key rules that differ from that are listed under "Left out". A sub-strategy
is foreign code: its effect on a call of `onPeriod` is the value it leaves in
`data.signal`. That value is an input (`produced`), where `None` stands for
null. The printed notices are kept in a ghost log `Engine.notices`.

The JavaScript arithmetic is written out:
- `Math.ceil(p / 2)` is `-((-p) / 2)`.
- `Math.round(a / p * 100)` is `(200a + p) / (2p)` (halves round up), and NaN when `p` is 0.
- `!=` on NaN is always true, so a NaN percentage always counts as a change.
- With no wrapper registered, the code divides 0 by 0. The model keeps that behaviour rather than excluding it:
  - `s.signal` is left as it was;
  - the percentage is NaN;
  - a notice is due on every call.

## Model

| member | source | states |
|---|---|---|
| Options.ParseRender | strategy.js:45 | a well-formed `name = literal` parameter string, printed and parsed back, gives the same parameter |
| Options.ParseParam | strategy.js:83 | the stand-in for `eval`: a string without `=` is a missing-equals error; an accepted string has an `=` and an identifier name |
| Options.ParseWellFormed | strategy.js:82-84 | every parameter the parser accepts is well formed (identifier name; decimal or plain string literal) |
| Options.OverlayLookup | strategy.js:81-85 | after writing parameters over an option map, a parameter name holds the value of its last occurrence, other keys keep their values, and no other key appears |
| Options.Overlay | strategy.js:81-85 | the option map after the parameters are assigned in order; no key of the original map is lost |
| Options.OverlayAppend | strategy.js:81-85 | writing two parameter lists one after the other is writing their concatenation |
| Cadence.NextTick | strategy.js:233-242 | the counter stays within 0..120 and wraps from 120 to 0 |
| Cadence.TicksWrap | strategy.js:233-242 | from counter value t, successive calls see t, ..., 120, then 0, 1, ... |
| Cadence.FiresPerMultiple | strategy.js:235 | counter values 0 .. q·period−1 make a wrapper fire exactly q times |
| Cadence.FiresPerCycle | strategy.js:233-242 | any 121 successive calls, from any reachable counter value, fire a wrapper whose period divides 120 exactly 120/period times |
| Voting.CeilHalf | strategy.js:162 | the threshold h is ceil(p/2): p ≤ 2h ≤ p+1 |
| Voting.RoundPct | strategy.js:184 | the percentage is NaN exactly when the possible total is 0 |
| Voting.RoundPctNearest | strategy.js:184 | a numeric percentage is the integer nearest to 100a/p, halves rounded up |
| Voting.Decide | strategy.js:181-194 | the decision: no signal is written and the percentage is NaN exactly when the possible total is 0; buy only for a positive total, sell only for a negative one; a hold trades 0 percent |
| Voting.WritePct | strategy.js:185-191 | the shared options after the decision: at most `buy_pct` or `sell_pct` is added, and every other key keeps its value |
| Voting.Changed | strategy.js:197 | the notice test under JavaScript `!=`: a NaN percentage, new or recorded, is always a change; no change means the recorded signal and percentage are the new ones |
| Voting.TallyBound | strategy.js:170-179 | with positive weights, \|sigTotal\| ≤ sigPossible, and sigPossible is at least the number of wrappers |
| Voting.TallySplit | strategy.js:173-179 | sigTotal is the weight of the buy wrappers minus the weight of the sell wrappers; any other signal counts 0 |
| Voting.WeightForNonNegative | strategy.js:173-179 | the weight behind any one signal is never negative |
| Voting.DecisionRule | strategy.js:181-194 | buy iff total > 0 and \|total\| ≥ threshold; sell iff total < 0 and \|total\| ≥ threshold; hold iff \|total\| < threshold (then 0 percent); with wrappers, a signal is always written |
| Voting.PctBounds | strategy.js:183-184 | a buy or sell trades between 50 and 100 percent |
| Voting.PctRange | strategy.js:184 | round(100a/p) lies in [50, 100] when p/2 ≤ a ≤ p |
| Voting.WriteRule | strategy.js:185-191 | only a buy writes `buy_pct`, only a sell writes `sell_pct`, each with the traded percentage; a hold writes neither |
| Voting.MajorityNeedsHalf | strategy.js:183-191 | a buy needs at least half of all weight signalling buy, a sell at least half signalling sell |
| Voting.Unanimous | strategy.js:173-179 | sigTotal equals sigPossible exactly when every wrapper signals buy |
| Voting.EmptyVote | strategy.js:183-197 | with no wrapper nothing is written, the percentage is NaN, and a notice is due whatever was recorded |
| Voting.RecordedIsQuiet | strategy.js:197 | a recorded signal with a numeric percentage is no change when repeated; only NaN makes a repeat count as a change |
| Report.SignWord | strategy.js:269-275 | the word is `buy` exactly for a positive total, `sell` exactly for a negative one, `hold` exactly for 0 |
| Report.StatusLine | strategy.js:257-277 | the status line starts with the column part, then `-> ` and the sign word |
| Report.SegmentsAppend | strategy.js:258-268 | the per-wrapper part of the report is one segment per wrapper, in registry order |
| Report.NatToStringRoundTrip | strategy.js:277 | the printed digits of a number read back as that number |
| Report.WordMatchesDecision | strategy.js:269-276 | when the vote buys or sells, the report's word names that same signal |
| Report.WordIgnoresThreshold | strategy.js:269-276 | the report's word depends only on the sign of the total: 50 of 500 reports `buy` while the vote holds |
| Settings.DefaultEnabledConfigured | settings.js:12-70 | every enabled name has a settings entry |
| Settings.DefaultEnabledDistinct | settings.js:12 | no name is enabled twice |
| Settings.DefaultPeriodsAndWeights | settings.js:21-70 | every period and weight is positive and every period divides 120 |
| Settings.DefaultThreshold | settings.js:12-62 | the enabled weights sum to 500, so the default threshold is 250 |
| Settings.DefaultHooks | settings.js:26-68 | only `forex_analytics` has a load hook, and it is not enabled |
| Settings.DefaultParamsParse | settings.js:21-70 | every shipped parameter string has the form `identifier = number` or `identifier = "string"` |
| Settings.Decimal | settings.js:39 | a whole part, a point and a digit string make a decimal literal |
| Settings.NumberParams | settings.js:25 | a list of `identifier = number` strings all parse |
| Strategy.Wrapper.constructor | strategy.js:48-72 | a new wrapper signals `hold`; its options are its parameters written over an empty map; its other data fields are empty |
| Strategy.Wrapper.CopyLocalOptions | strategy.js:81-85 | the options become the parameters written over the previous options, in order |
| Strategy.Wrapper.CopyData | strategy.js:90-97 | the options become the shared options with the wrapper's parameters over them; period, lookback and trades equal the shared ones |
| Strategy.Wrapper.OnPeriod | strategy.js:104-111 | the wrapper keeps the sub-strategy's signal, or `hold` when it left none |
| Strategy.AliasedPass | strategy.js:90-92 | the one shared option map after a calculate pass under aliasing; no key of the host map is lost |
| Strategy.AliasedPassFlattens | strategy.js:90-92 | under the aliasing of `copyData`, the one shared map, seen by every wrapper, holds all wrappers' parameters, the last writer winning |
| Strategy.AliasingLeaks | strategy.js:91 | under aliasing, `rsi` sees `macd`'s `overbought_rsi` (70) instead of its own (82) |
| Strategy.AllParseOk | strategy.js:82-84 | a list whose strings all parse is parsed as a whole without error |
| Strategy.SetupRun | strategy.js:126-131 | the registered names and the first error of a setup pass; each enabled name adds at most one name |
| Strategy.SetupRunExtends | strategy.js:126-131 | setup only appends: registered names are never re-created or dropped |
| Strategy.SetupRunDistinct | strategy.js:128 | setup registers each name at most once |
| Strategy.SetupRunCovers | strategy.js:126-131 | a setup without error has registered every enabled name, and keeps every name registered before |
| Strategy.SetupRunAdmitsAll | strategy.js:126-131 | distinct new names that all load and parse are registered in order, without error |
| Strategy.DefaultSetup | strategy.js:121-133 | the shipped configuration registers its six enabled algorithms, in order, without error |
| Strategy.Engine.constructor | strategy.js:16-31 | empty registry, counters at 0, nothing recorded |
| Strategy.Engine.Setup | strategy.js:121-133 | the registry's names become those of the setup run; old wrappers are kept; new wrappers are fresh and configured from their entry; the first error is returned; only the registry changes |
| Strategy.Engine.Register | strategy.js:71 | a wrapper under a new name is appended at the end of the registry, which stays well formed (distinct names, distinct wrappers, positive periods and weights) |
| Strategy.Engine.Calculate | strategy.js:220-224 | every wrapper's data record is refreshed from the shared context, with its own parameters over the shared options |
| Strategy.Engine.CalculateThreshold | strategy.js:156-163 | sigPossible is the sum of the weights and sigThreshold is its half, rounded up |
| Strategy.Engine.CountVotes | strategy.js:170-179 | sigTotal is the signed weighted sum of the signals |
| Strategy.Engine.Count | strategy.js:156-179 | sigPossible, sigThreshold and sigTotal match the registry's weights and signals, and \|sigTotal\| ≤ sigPossible |
| Strategy.Engine.ApplyDecision | strategy.js:181-194 | the shared signal and options become those of the decision rule, and the traded percentage is returned |
| Strategy.Engine.RecordNotice | strategy.js:197-201 | a notice is logged and the pair recorded exactly when signal or percentage changed; otherwise nothing changes |
| Strategy.Engine.ProcessSignals | strategy.js:169-202 | afterwards sigOld is the shared signal, pctOld the traded percentage, and one notice was logged iff the pair changed |
| Strategy.Engine.RunDue | strategy.js:233-238 | exactly the wrappers with counter < 120 and counter % period == 0 take their sub-strategy's signal |
| Strategy.Engine.Tick | strategy.js:233-242 | the due wrappers take their sub-strategy's signal and the counter advances, or wraps from 120 to 0 |
| Strategy.Engine.OnPeriod | strategy.js:226-251 | in preroll nothing changes; otherwise the due wrappers fire, the counter advances or wraps within 0..120, and the vote runs |
| Strategy.Engine.Columns | strategy.js:257-267 | the column part of the status line opens with a bar and then holds one `name:code` segment per wrapper, each closed by a bar, in registry order |
| Strategy.Engine.OnReport | strategy.js:256-279 | the result is the one-element list holding the status line: segments in order, the sign word, the total and the threshold |
| Strategy.RepeatedVoteIsQuiet | strategy.js:197-201 | two votes in a row log no more notices than the first one does |

## Left out

- Loading modules at runtime: `require` of a sub-strategy (strategy.js:49) and of the settings (strategy.js:122).
  - Which names can be loaded is the parameter `loadable` of `Engine.Setup`.
  - The settings are the constant `Settings.Default`, or any `Config`.
- The sub-strategies' own `calculate`, `onPeriod` and `onReport` (strategy.js:101, 105, 114) are foreign code.
  - Their effect is the signal they leave in `data.signal`, passed in as `produced`.
  - Changes they make to their data record are not modelled.
- `eval` of a parameter string (strategy.js:83). It is modelled by a parser of the documented form:
  - an identifier;
  - `=`;
  - a decimal number, or a double-quoted string without quotes, backslashes or line breaks (a line break leaves the literal unterminated, so the model rejects it as `eval` does).
  - Other JavaScript (single quotes, escapes, exponents, hex, legacy octal, expressions) is a parse error in the model. Whitespace other than spaces around `=` is not trimmed.
- JavaScript object semantics of the registry `algs` and of the option maps. Names and option keys are modelled as plain distinct strings, so three behaviours are not captured:
  - `algName in algs` (strategy.js:128) is also true for inherited keys. The code silently skips an enabled name such as `constructor` or `toString`, while `Strategy.SetupRun` registers it.
  - Assigning to `__proto__` (strategy.js:71, 83) creates no own key. The model stores it like any other key.
  - `for…in` (strategy.js:158, 173, 221, 234, 258) visits integer-like keys such as `"42"` first, in ascending order, and only then the other keys in insertion order. The model always uses insertion order, so for such names the status line, and the order of calls, differ.
- `eval` of an `onLoad` hook (strategy.js:67-69) runs arbitrary code, so it is not modelled. Its text is kept in the settings, and the only hook belongs to the disabled `forex_analytics`.
- Strategy.Engine.Setup: requires every configured weight and period to be positive. The code would accept others, but then the vote could not be bounded and `%` by 0 would yield NaN. The shipped settings satisfy this (`Settings.DefaultPeriodsAndWeights`).
- Floating point in `Math.round((|sigTotal| / sigPossible) * 100)` (strategy.js:184): the model rounds exactly, so results at exact float ties are not captured.
- The console text of `printSignalForEach` (strategy.js:138-151). Each notice is recorded as a `Notice` value in a ghost log, holding the signal, percentage, magnitude and threshold.
- Host plumbing carries no behaviour:
  - option registration (`this.option`, strategy.js:64, 215-216);
  - the callbacks `cb` (strategy.js:74-76, 227, 249);
  - the unused `zero-fill` and `numbro` imports (strategy.js:10-11).
- The `in_preroll` field of a wrapper's data record (strategy.js:57) is constant `false` and never read by the engine.
- Strategy.AliasedPass models only the options part of the aliasing. Mutations that the sub-strategies or `processSignals` make to the shared map through it are not modelled.

## Findings

| source | as written | input that shows it | evidently intended | confidence | as-written member | corrected member |
|---|---|---|---|---|---|---|
| strategy.js:91 | `copyData` sets `data.options` to the shared `s.options` object itself, so each wrapper writes its parameters into the one map all wrappers share | the shipped `rsi` (`overbought_rsi = 82`) and `macd` (`overbought_rsi = 70`): after a `calculate` pass, `rsi` runs with `overbought_rsi` 70 | each wrapper gets its own data record (the comment at strategy.js:55): the shared options with its own parameters over them, without touching the others | not executed | Strategy.AliasingLeaks | Strategy.Wrapper.CopyData |
