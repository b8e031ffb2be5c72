# Binary-Signals-Pro: candle-synchronised signal scheduler in Dafny

This project models the deterministic core of Binary-Signals-Pro, a React front end that
produces one-minute binary-option signals for Pocket Option OTC currency pairs.

- **Candle clock and ledger** (`CandleSync`, useCandleSync.ts). From the current instant and a
  chart timeframe (1, 2, 3 or 5 minutes) it computes the candle the instant falls in: open and
  close instants, seconds remaining, the "closed" flag and the candle id. A grow-only set
  remembers which candle ids were analysed.
- **Multi-pair scheduler** (`MultiPairAnalysis`, useMultiPairAnalysis.ts). A live pair rotates
  through the selected pairs. A per-pair ledger records which candles each pair was analysed
  for and when. `shouldAnalyzePair` combines four checks.
- **Analyzer panel** (`AnalyzerPanel`, AnalyzerPanel.tsx). This holds the trigger gate, which
  analyses then marks each closed candle once. It also holds the confidence score, the
  acceptance test, the newest-first signal buffer capped at 30, the `mm:ss` countdown and the
  footer average.
- **Binary-option decision tables** (`BinaryOptions`, binaryOptionsAnalysis.ts):
  - candle body and wick shares, strength and pattern;
  - the entry-timing table;
  - the filter and trigger lists;
  - the win probability;
  - the candle timer;
  - the next-candle forecast.
- **Pocket Option helpers** (`PocketOption`, pocketOptionService.ts): the payout filter with
  its fallback, the fallback catalogue of 28 pairs, `formatOtcSymbol` and `convertTimeframe`.
- **Selection and configuration handlers** (`PairSelector`, MultiPairSelector.tsx, and
  `ConfigPanel`, ConfigPanel.tsx): toggling a pair or a strategy, select-all, and the
  single-field configuration updates.

The supporting modules are:
- `Signals`: the shared shapes of signals.ts;
- `Text`: decimal printing and parsing, `padStart`, and first-occurrence `replace`;
- `Lists`: `indexOf`, `filter`, and the membership toggle;
- `Arith`: floor division facts.

Modelling conventions:
- Instants are integer milliseconds since the epoch, read in UTC. The clock is always a
  parameter `now`.
- The random draws of one analysis are a `Draw` value passed in.
- React state becomes classes (`CandleClock`, `MultiPairScheduler`, `Panel`, `Selector`) whose
  methods state the whole new state. Effects and handlers are method calls.

Behaviour of the code that the model keeps:
- The seconds remaining are rounded down (`Math.floor`).
- A candle counts as closed once 5 seconds or fewer remain.
- The candle id joins the open instant and the timeframe label with `-`.
- The multi-pair hook creates its own candle clock and never marks it. That clock's ledger
  stays empty, so its check passes for every candle the clock publishes
  (`ClockLedgerNeverBlocks`).

## Model

| member | source | states |
|---|---|---|
| Signals.Timeframe.Minutes | src/hooks/useCandleSync.ts:8 | `parseInt` of a chart timeframe is 1..5 minutes and divides the hour |
| Signals.LabelInjective | src/hooks/useCandleSync.ts:34 | distinct timeframes have distinct labels, so the id suffix identifies the timeframe |
| Text.ParseIntToString | src/hooks/useCandleSync.ts:34 | the decimal text of the open instant reads back as the same integer, negative ones included |
| Text.IntToStringInjective | src/hooks/useCandleSync.ts:34 | distinct open instants give distinct id prefixes |
| Text.PadTwoDigits | src/components/AnalyzerPanel.tsx:152 | `padStart(2, '0')` of a value below 100 is two digits that read back as the value |
| Text.FirstIndex | src/lib/pocketOptionService.ts:130 | the search finds an occurrence of the pattern with none before it, or -1 when there is none |
| Text.ReplaceFirst | src/lib/pocketOptionService.ts:130 | without an occurrence the text is unchanged; otherwise the first occurrence alone is swapped for the replacement, with the text before and after it kept |
| Lists.IndexOf | src/hooks/useMultiPairAnalysis.ts:30 | `indexOf` is -1 exactly for a missing item, else the first position holding it |
| Lists.RemoveAll | src/components/MultiPairSelector.tsx:30 | the item is gone, and the list is shorter by exactly its number of occurrences |
| Lists.Toggle | src/components/MultiPairSelector.tsx:28-34 | the item's membership flips; the length drops by its occurrences or grows by one |
| Lists.RemoveAllSpec | src/components/MultiPairSelector.tsx:30 | the filter drops every occurrence of the item and keeps the others, with their counts and order |
| Lists.ToggleTwiceAbsent | src/components/MultiPairSelector.tsx:28-34 | toggling an absent item appends it, and toggling again restores the list |
| Lists.ToggleKeepsNoDuplicates | src/components/MultiPairSelector.tsx:28-34 | toggling keeps a list free of repeats and flips the item's membership |
| CandleSync.StartMinute | src/hooks/useCandleSync.ts:16-17 | the start minute is a multiple of the timeframe, at most the current minute, within one timeframe of it, and the slot ends within the hour |
| CandleSync.CalculateCandleInfo | src/hooks/useCandleSync.ts:10-44 | the candle opens at whole minutes, contains the instant, and closes one timeframe later; seconds remaining are `floor((close - now) / 1000)` and lie in 0..60·timeframe; closed iff at most 5 s remain; the id is built from the open instant and the label |
| CandleSync.ClockFields | src/hooks/useCandleSync.ts:11-13 | minutes, seconds and milliseconds of the instant are in range and recompose the instant |
| CandleSync.OpenTimeInMinutes | src/hooks/useCandleSync.ts:20-21 | `setMinutes(start, 0, 0)` takes the whole minute count back to the start minute |
| CandleSync.AlignMinuteCount | src/hooks/useCandleSync.ts:16-17 | rounding the minute of the hour down is rounding the whole minute count down, because the timeframe divides 60 |
| CandleSync.OpenTimeIsAligned | src/hooks/useCandleSync.ts:16-21 | the open instant is the instant rounded down to a multiple of the timeframe |
| CandleSync.SameWindowSameCandle | src/hooks/useCandleSync.ts:20-34 | two instants in one timeframe-aligned window get the same id, open and close |
| CandleSync.CandleIdInjective | src/hooks/useCandleSync.ts:34 | equal ids iff equal open instants and timeframes |
| CandleSync.DifferentWindowDifferentId | src/hooks/useCandleSync.ts:34 | instants in different windows get different ids |
| CandleSync.MinuteScenario | src/hooks/useCandleSync.ts:10-44 | at 12:00:00 the one-minute candle is open with 60 s left; at 12:00:57 the same candle has 3 s left and counts as closed |
| CandleSync.CandleClock.constructor | src/hooks/useCandleSync.ts:5-6 | no candle yet, empty ledger |
| CandleSync.CandleClock.Tick | src/hooks/useCandleSync.ts:46-49 | the current candle is recomputed from the instant and the ledger is untouched |
| CandleSync.CandleClock.MarkCandleAnalyzed | src/hooks/useCandleSync.ts:66-73 | the id is added, so `canAnalyzeCandle` (`CanAnalyzeCandle`) is false for it from then on; no id is removed; every other id keeps its `canAnalyzeCandle` answer; marking again changes nothing |
| MultiPairAnalysis.NextPair | src/hooks/useMultiPairAnalysis.ts:30-32 | the next live pair is always one of the selected pairs |
| MultiPairAnalysis.NextPairMissing | src/hooks/useMultiPairAnalysis.ts:30-32 | a live pair missing from the list rotates to index 0 |
| MultiPairAnalysis.NextPairAt | src/hooks/useMultiPairAnalysis.ts:30-32 | with distinct names, the pair at i rotates to the one at i + 1, wrapping to 0 |
| MultiPairAnalysis.Rotated | src/hooks/useMultiPairAnalysis.ts:29-40 | the new live pair is a selected pair, and both ledgers are unchanged |
| MultiPairAnalysis.RotateTimes | src/hooks/useMultiPairAnalysis.ts:28-41 | after at least one rotation the live pair is a selected pair |
| MultiPairAnalysis.RotationSteps | src/hooks/useMultiPairAnalysis.ts:30-32 | m rotations from position i land on the position reached by m single steps round the list |
| MultiPairAnalysis.RotationOrder | src/hooks/useMultiPairAnalysis.ts:28-41 | m rotations from position i reach position (i + m) mod n |
| MultiPairAnalysis.RotateFromFirst | src/hooks/useMultiPairAnalysis.ts:30-31 | from a missing pair, m + 1 rotations equal m rotations from the first pair |
| MultiPairAnalysis.RotationFromMissing | src/hooks/useMultiPairAnalysis.ts:30-32 | from a missing pair, rotation m + 1 is at position m mod n |
| MultiPairAnalysis.RotationCoverage | src/hooks/useMultiPairAnalysis.ts:28-49 | within any n consecutive rotations every selected pair is live |
| MultiPairAnalysis.SameStepSamePair | src/hooks/useMultiPairAnalysis.ts:30-32 | rotation counts that step to the same position give the same pair |
| MultiPairAnalysis.RotationPeriodic | src/hooks/useMultiPairAnalysis.ts:30-32 | rotation repeats with period n |
| MultiPairAnalysis.ThreePairScenario | src/hooks/useMultiPairAnalysis.ts:28-41 | over [A, B, C] from A, four rotations give B, C, A, B |
| MultiPairAnalysis.StallStep | src/hooks/useMultiPairAnalysis.ts:30-31 | in [A, A, B] the pair A rotates to A, because `indexOf` finds the first A |
| MultiPairAnalysis.FixedPointStays | src/hooks/useMultiPairAnalysis.ts:28-41 | a pair that rotates to itself stays live after any number of rotations |
| MultiPairAnalysis.DuplicateStalls | src/hooks/useMultiPairAnalysis.ts:30-31 | with a repeated name the rotation can stall forever and never reach B |
| MultiPairAnalysis.Marked | src/hooks/useMultiPairAnalysis.ts:59-75 | the live pair is kept, the pair's set now holds the id and keeps its old ids, and the pair's time is `now` |
| MultiPairAnalysis.MarkedEffect | src/hooks/useMultiPairAnalysis.ts:54-82 | marking closes the id for the pair, so `canAnalyzePairCandle` (`CanAnalyzePairCandle`) is false for it and unchanged for other ids, and sets the pair's last-analysis time, read with 0 for a missing entry (`LastAnalysis`), to `now`; the live pair and the sets, membership, `canAnalyzePairCandle` answers and times of every other pair are unchanged; a missing set counts as empty |
| MultiPairAnalysis.MarkedIdempotent | src/hooks/useMultiPairAnalysis.ts:59-75 | marking the same pair and candle twice equals marking once with the later time |
| MultiPairAnalysis.MarkedNotDueAgain | src/hooks/useMultiPairAnalysis.ts:77-86 | once a pair is marked for the candle, `shouldAnalyzePair` (`ShouldAnalyzePair`) is false for that pair and candle at every instant, and every other pair keeps its answer |
| MultiPairAnalysis.MinimumInterval | src/hooks/useMultiPairAnalysis.ts:77-86 | less than one timeframe after an analysis `shouldAnalyzePair` (`ShouldAnalyzePair`) is false for the pair, whatever the candle and the ledgers |
| MultiPairAnalysis.MultiPairScheduler.constructor | src/hooks/useMultiPairAnalysis.ts:16-22 | empty live pair, empty ledgers, a fresh candle clock |
| MultiPairAnalysis.MultiPairScheduler.Initialize | src/hooks/useMultiPairAnalysis.ts:26-46 | active, with pairs and nothing live, the first pair becomes live; otherwise nothing changes; the clock is untouched |
| MultiPairAnalysis.MultiPairScheduler.Rotate | src/hooks/useMultiPairAnalysis.ts:26-41 | active with pairs, only the live pair changes, to the next one, which is selected; otherwise nothing changes; the clock is untouched |
| MultiPairAnalysis.MultiPairScheduler.MarkPairCandleAnalyzed | src/hooks/useMultiPairAnalysis.ts:59-86 | the state becomes the marked state; the pair can no longer analyse that candle and, when it is the clock's current candle, is not due at any instant; every other pair keeps its answer; the clock is untouched |
| MultiPairAnalysis.ClockLedgerNeverBlocks | src/hooks/useMultiPairAnalysis.ts:22 | a tick of a scheduler's clock whose ledger is empty, as construction leaves it and no scheduler method changes it, keeps that ledger empty, so the ledger check passes for the candle just published |
| AnalyzerPanel.TotalConfidence | src/components/AnalyzerPanel.tsx:64-71 | the score lies in 70..90; it is 70 iff no bonus is drawn and 90 iff all are |
| AnalyzerPanel.Accepts | src/components/AnalyzerPanel.tsx:72 | an accepted draw has an enabled strategy and needs a threshold of at most 90; with the strategy enabled, a threshold of at most 70 accepts every draw |
| AnalyzerPanel.NewSignal | src/components/AnalyzerPanel.tsx:92-115 | the signal carries the drawn direction and strategy, the configured asset and timeframe, the candle id, and a confidence in 70..90 |
| AnalyzerPanel.PushSignal | src/components/AnalyzerPanel.tsx:128 | the new signal comes first, the length is capped at 30, and the rest is the old buffer's newest entries in order |
| AnalyzerPanel.FormatTime | src/components/AnalyzerPanel.tsx:149-153 | the text is digits, a colon and two digits; the seconds are below 60; minutes·60 + seconds read back to the input |
| AnalyzerPanel.AverageConfidence | src/components/AnalyzerPanel.tsx:284 | 0 without signals, else the floor of the mean confidence |
| AnalyzerPanel.SumBounds | src/components/AnalyzerPanel.tsx:284 | with every confidence in [lo, hi] the sum lies between n·lo and n·hi |
| AnalyzerPanel.AverageWithin | src/components/AnalyzerPanel.tsx:284 | with every confidence in [lo, hi] so is the average |
| AnalyzerPanel.Panel.constructor | src/components/AnalyzerPanel.tsx:22-34 | not analysing, no signals, the default configuration, a fresh candle clock |
| AnalyzerPanel.Panel.ToggleAnalysis | src/components/AnalyzerPanel.tsx:135-136 | the switch flips, nothing else changes, and the buffer invariant is kept |
| AnalyzerPanel.Panel.SetConfig | src/components/AnalyzerPanel.tsx:235 | the new configuration replaces the old one, nothing else changes, and the buffer invariant is kept |
| AnalyzerPanel.Panel.TickClock | src/components/AnalyzerPanel.tsx:34 | the clock for the configured timeframe publishes the candle of the instant |
| AnalyzerPanel.Panel.AnalyzeCandle | src/components/AnalyzerPanel.tsx:52-133 | a signal is buffered iff the score reaches the threshold and the drawn strategy is enabled; all buffered confidences stay in 70..90 |
| AnalyzerPanel.Panel.Gate | src/components/AnalyzerPanel.tsx:36-50 | fires iff analysing, a candle is present and closed, and its id is unprocessed; a firing analyses and marks the id; otherwise nothing changes |
| AnalyzerPanel.Panel.TicksInOneWindow | src/components/AnalyzerPanel.tsx:36-50 | any number of ticks in one candle window, each followed by the gate, fire it at most once in total |
| ConfigPanel.ToggleStrategy | src/components/ConfigPanel.tsx:17-23 | only the strategy list changes; an absent id is appended, a present one removed everywhere with the rest kept in order |
| ConfigPanel.ToggledOffRejected | src/components/ConfigPanel.tsx:17-23 | after switching a strategy off, the panel rejects every draw of it |
| ConfigPanel.SetCurrentAsset | src/components/ConfigPanel.tsx:37 | the asset is the typed value and nothing else changes |
| ConfigPanel.SelectTimeframe | src/components/ConfigPanel.tsx:53 | the timeframe is the chosen one and nothing else changes |
| ConfigPanel.SetWaitForCandleClose | src/components/ConfigPanel.tsx:79 | the flag is the switch's value and nothing else changes |
| ConfigPanel.SetMinConfidence | src/components/ConfigPanel.tsx:91 | the threshold is the slider's value and nothing else changes |
| ConfigPanel.SliderValues | src/components/ConfigPanel.tsx:92-94 | ten positions from 50 to 95 in steps of 5 |
| ConfigPanel.SliderValuesSpec | src/components/ConfigPanel.tsx:92-94 | a value is offered iff it is a multiple of 5 in 50..95 |
| PairSelector.Names | src/components/MultiPairSelector.tsx:23 | one name per pair, in the pairs' order, and a name is listed iff some pair carries it |
| PairSelector.TogglePair | src/components/MultiPairSelector.tsx:28-34 | an absent name is appended; a present one is removed everywhere, with the other names kept in order and count |
| PairSelector.TogglePairTwice | src/components/MultiPairSelector.tsx:28-34 | toggling an absent name twice restores the selection |
| PairSelector.TogglePairKeepsDistinct | src/components/MultiPairSelector.tsx:28-34 | toggling keeps a selection free of repeats and flips the name's membership |
| PairSelector.SelectAllDefaultCoverage | src/components/MultiPairSelector.tsx:23 | selecting all of the fallback catalogue gives 28 distinct names, and the rotation reaches each within any 28 rotations |
| PairSelector.Selector.constructor | src/components/MultiPairSelector.tsx:17 | the flag starts off |
| PairSelector.Selector.HandleSelectAll | src/components/MultiPairSelector.tsx:19-26 | with the flag off all names are selected in catalogue order, with it on the selection is cleared, and the flag flips |
| PairSelector.Selector.HandleTogglePair | src/components/MultiPairSelector.tsx:28-34 | the selection is toggled and the flag kept |
| BinaryOptions.AnalyzeCandleBody | src/lib/binaryOptionsAnalysis.ts:37-82 | strength FORTE iff body > 70 %, MODERADA iff in (40, 70], FRACA otherwise; a zero range gives zero shares, FRACA and a doji; each of the seven patterns, Pião and Normal included, holds exactly when its test is the first in the chain to pass |
| BinaryOptions.SharesOfWellFormedCandle | src/lib/binaryOptionsAnalysis.ts:43-52 | for a well-formed candle body and wick shares lie in 0..100 and sum to 100 |
| BinaryOptions.PercentSplit | src/lib/binaryOptionsAnalysis.ts:50-52 | three parts that make up the range give shares in 0..100 that sum to 100 |
| BinaryOptions.AnalyzeEntryTiming | src/lib/binaryOptionsAnalysis.ts:87-168 | VELA_ATUAL exactly for a strong candle with enough confluence and at least 30 s left; 1..29 s always gives PROXIMA_VELA, urgency ALTA, 85 or 70; BAIXA iff AGUARDAR; the seconds are echoed; confidence in 50..90 |
| BinaryOptions.FilterList | src/lib/binaryOptionsAnalysis.ts:173-221 | 1 to 6 filters, the strength entry last |
| BinaryOptions.FilterListMembers | src/lib/binaryOptionsAnalysis.ts:173-221 | 1 to 6 filters, ending with the strength entry, each from a stage whose condition held |
| BinaryOptions.FilterListBodyEntries | src/lib/binaryOptionsAnalysis.ts:181-186 | strong-body entry iff body > 70 %, weak-body entry iff body < 30 % |
| BinaryOptions.FilterListWickEntries | src/lib/binaryOptionsAnalysis.ts:188-198 | each wick-rejection entry and the reversal entry is present iff its condition holds |
| BinaryOptions.FilterListVolumeEntries | src/lib/binaryOptionsAnalysis.ts:200-206 | high-volume entry iff the ratio exceeds 150 %, low-volume iff below 70 %, with the ratio 100 for no average |
| BinaryOptions.FilterListTrendEntries | src/lib/binaryOptionsAnalysis.ts:208-215 | each trend entry is present iff its condition holds |
| BinaryOptions.GetBinaryOptionsFilters1M | src/lib/binaryOptionsAnalysis.ts:173-221 | the pushes build exactly the staged filter list |
| BinaryOptions.TriggerList | src/lib/binaryOptionsAnalysis.ts:226-271 | 4 to 6 triggers, the pattern first and the urgency last |
| BinaryOptions.TriggerListMembers | src/lib/binaryOptionsAnalysis.ts:226-271 | each trigger is a fixed entry or comes from a stage whose condition held |
| BinaryOptions.TriggerListShape | src/lib/binaryOptionsAnalysis.ts:226-271 | 4 to 6 triggers: pattern first, timing advice second, urgency last |
| BinaryOptions.TriggerListConfluenceEntries | src/lib/binaryOptionsAnalysis.ts:245-252 | maximum, high and moderate confluence entries appear exactly in their score bands |
| BinaryOptions.TriggerListBodyEntries | src/lib/binaryOptionsAnalysis.ts:254-265 | exactly one dominance entry, the right one; the direction entry iff body > 60 % |
| BinaryOptions.GetBinaryOptionsTriggers1M | src/lib/binaryOptionsAnalysis.ts:226-271 | the pushes build exactly the staged trigger list |
| BinaryOptions.Clamp | src/lib/binaryOptionsAnalysis.ts:314 | the result lies in 50..98, equals the input inside that range, and is the nearer bound outside it |
| BinaryOptions.WinProbability | src/lib/binaryOptionsAnalysis.ts:293-314 | the probability lies in 50..98 and between the clamped confluence - 5 and + 15, reaching each bound in its extreme case |
| BinaryOptions.WinProbabilityMonotone | src/lib/binaryOptionsAnalysis.ts:293-314 | more confluence never lowers the probability |
| BinaryOptions.AnalyzeBinaryOptions1M | src/lib/binaryOptionsAnalysis.ts:276-323 | the signal combines the four analyses, and the step-by-step adjustment equals the win probability, in 50..98 |
| BinaryOptions.DetectCandleTimer | src/lib/binaryOptionsAnalysis.ts:328-360 | non-negative whole seconds to the close, 0 iff under a second remains; FECHADA iff 0; INICIO and FINAL exactly under their progress bounds |
| BinaryOptions.TimerInsideCandle | src/lib/binaryOptionsAnalysis.ts:340-344 | inside its window the timer counts the whole seconds to the close and the progress is in [0, 100) |
| BinaryOptions.ProgressBelow | src/lib/binaryOptionsAnalysis.ts:344 | an elapsed time within the window gives progress in [0, 100) |
| BinaryOptions.TimerAgreesWithClock | src/lib/binaryOptionsAnalysis.ts:336-344 | timed against the clock's candle, the timer reports the clock's seconds, and FECHADA only for a closed candle |
| BinaryOptions.BullishCount | src/lib/binaryOptionsAnalysis.ts:379 | the count is at most the length; 0 iff none is bullish, the length iff all are |
| BinaryOptions.PredictNextCandle | src/lib/binaryOptionsAnalysis.ts:365-412 | INCERTO iff confidence 50; 75 iff a strong candle, which continues its direction; on a non-strong candle a hammer gives CALL 80 and a shooting star PUT 80; otherwise an up or down trend backed by a strict majority of bullish or bearish candles gives CALL or PUT at 70, and 70 arises only that way |
| PocketOption.HighPayoutPairs | src/lib/pocketOptionService.ts:33-36 | the filtered list is no longer than the input and every pair in it pays at least 85 |
| PocketOption.SelectOtcPairs | src/lib/pocketOptionService.ts:33-39 | the result is empty only for an empty input, and it is either the input or a list of high-payout pairs |
| PocketOption.HighPayoutPairsSpec | src/lib/pocketOptionService.ts:33-36 | the filter keeps exactly the pairs with payout at least 85, a missing payout counting as 0, each as often as it occurs and in order |
| PocketOption.SelectOtcPairsSpec | src/lib/pocketOptionService.ts:33-39 | if some pair qualifies exactly the qualifying pairs are returned, otherwise the fetched list unchanged |
| PocketOption.DefaultPairsIncrease | src/lib/pocketOptionService.ts:94-123 | the 28 catalogue pairs are in strictly increasing alphabetical order |
| PocketOption.SymbolAndNameInjective | src/lib/pocketOptionService.ts:95-122 | a symbol or a name determines its pair |
| PocketOption.DefaultOtcPairs | src/lib/pocketOptionService.ts:93-124 | 28 active OTC entries without payout |
| PocketOption.DefaultOtcPairsSpec | src/lib/pocketOptionService.ts:93-124 | 28 active OTC entries without payout, symbols ending in "_otc", distinct symbols and distinct names |
| PocketOption.DefaultOtcPairsEnds | src/lib/pocketOptionService.ts:95-122 | the first entry is AUDCAD_otc / AUD/CAD OTC and the last USDJPY_otc / USD/JPY OTC |
| PocketOption.FormatOtcSymbol | src/lib/pocketOptionService.ts:129-131 | the display text ends with " OTC" |
| PocketOption.FormatSplitSymbol | src/lib/pocketOptionService.ts:129-131 | "BASE_QUOTE_otc" with upper-case codes displays as "BASE/QUOTE OTC": only the first "_otc" and the first "_" are replaced |
| PocketOption.FormatCatalogueSymbol | src/lib/pocketOptionService.ts:129-131 | a catalogue symbol such as "AUDCAD_otc" displays as "AUDCAD OTC", which differs from its catalogue name |
| PocketOption.ConvertTimeframe | src/lib/pocketOptionService.ts:137-148 | a listed code gives its listed seconds, an unknown code gives "60", and every result is one of the listed seconds |
| PocketOption.ConvertQuarterHour | src/lib/pocketOptionService.ts:143 | "15m" converts to the decimal text of 15·60 |
| PocketOption.ConvertHalfHour | src/lib/pocketOptionService.ts:144 | "30m" converts to the decimal text of 30·60 |
| PocketOption.ConvertHour | src/lib/pocketOptionService.ts:145 | "1h" converts to the decimal text of 60·60 |
| PocketOption.ConvertChartTimeframe | src/lib/pocketOptionService.ts:137-148 | each chart timeframe converts to its own length in seconds ("1m" to "60", "5m" to "300") |

## Left out

- Timers and the React lifecycle (`setInterval`, effect re-runs, dependency arrays) are left out. Each tick, rotation or gate run is an explicit method call; their interleaving is concurrency.
- The wall clock and the local timezone are left out. Instants are parameters read in UTC; timezone offsets and daylight-saving shifts are not modelled.
- `Math.random` is not modelled. Each draw of one analysis (strategy, five bonuses, direction) is a `Draw` input.
- The floating-point entry price, `toFixed`, the technical-analysis record and the reasoning texts are left out. They are random or cosmetic.
- Filter and trigger texts are tagged entries that carry the value the text shows. The emoji strings and `toFixed` formatting are not modelled.
- Candle prices and percentages are Dafny `real`, not IEEE doubles. Confluence, payout and the win probability are integers.
- BinaryOptions.AnalyzeEntryTiming: `secondsRemaining` is a JavaScript number, modelled as an `int`. Every threshold on it is a whole number compared with `>=` or `<`, so a fractional input takes the branch of its floor, and both producers floor it; only the echoed value of a fractional input is not modelled. `WinProbability` and `AnalyzeBinaryOptions1M` read the same whole-second value from the timing record.
- AnalyzerPanel.TradingSignal keeps only the fields the panel's logic reads: direction, asset, timeframe, confidence, strategy and candle id. The signal's `id`, `timestamp`, `expirationTime`, `source`, `candleCloseTime`, entry price, technical-analysis record, reasoning and the strategy's first four `triggers` and `filters` are left out: they are clock readings, random values, catalogue text or cosmetic.
- Pattern names are a datatype. `includes('Martelo') || includes('Estrela')` is the hammer-or-shooting-star test.
- `analyzeEntryTiming` accepts a trend argument that it never consults. The model keeps the argument unused.
- The network (`getOtcPairs`'s HTTP call, `getPairDetails`, `getOtcCandles`, `checkApiStatus`) and the hooks built on it are left out. The payout filter is modelled on the fetched list, and the fallback on errors is the catalogue constant.
- UI-only files and all JSX are left out, and so is console logging.
- `src/types/signals.ts` is only borrowed for its record shapes. Its strategy catalogue is a list of ids passed to the panel's constructor.
- MultiPairAnalysis.Marked: the source adds the id to the previous state's own Set object in place. Only the resulting values are modelled; sharing of that Set between the old and new state is not.
- MultiPairAnalysis.Rotated: the rotation interval's closure in the source reads the selection current when the effect last ran. The model passes the selection to each call.
- PocketOption.ConvertTimeframe: a JavaScript object lookup also finds inherited keys such as "toString", which then yields a function rather than "60". Only the listed keys and the default are modelled.
- AnalyzerPanel.Panel.Gate: the source runs the gate whenever the candle or the settings change. The model runs it once per tick; running it again with nothing changed does not fire, because the id is then marked.
- The win-probability penalty for entering the current candle with under 30 s left can never apply: the timing table gives VELA_ATUAL only with at least 30 s left. `AnalyzeBinaryOptions1M` keeps the branch, and `WinProbability` omits it.
- `formatOtcSymbol` applied to a catalogue symbol such as "AUDCAD_otc" gives "AUDCAD OTC" without a slash (`FormatCatalogueSymbol`). The catalogue names have the slash. Nothing in the modelled core compares the two, so this is recorded as behaviour, not as a defect.
