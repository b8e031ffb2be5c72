/** The single-pair analyzer panel (src/components/AnalyzerPanel.tsx): a trigger gate that
    analyses each closed candle once, the confidence score of one analysis, the bounded
    newest-first signal buffer, the mm:ss countdown text and the footer average. The random
    draws of one analysis are passed in as a `Draw`. */
module AnalyzerPanel {
  import opened Signals
  import opened CandleSync
  import Text

  datatype Direction = CALL | PUT

  /** What one run of analyzeCandle draws at random: the strategy (its id and its display
      name), the five confluence bonuses and the direction. The source draws one catalogue
      entry and takes both its id and its name from it; here the two are independent inputs,
      which admits every draw the source can make and more, so what is proved for all draws
      holds for the source's draws. */
  datatype Draw = Draw(
    strategyId: string,
    strategyName: string,
    emaBonus: bool,
    adxBonus: bool,
    macdBonus: bool,
    volumeBonus: bool,
    fibonacciBonus: bool,
    direction: Direction)

  /** The fields of a generated signal that the panel's logic depends on. */
  datatype TradingSignal = TradingSignal(
    direction: Direction,
    asset: string,
    timeframe: Timeframe,
    confidence: int,
    strategy: string,
    candleId: string)

  /** The signal list keeps at most this many entries. */
  const MaxSignals := 30

  function Bonus(drawn: bool, points: int): int {
    if drawn then points else 0
  }

  /** `Math.min(95, 70 + bonuses)`: the five bonuses add at most 20 points, so the score is
      between the bare base 70 and 90, and the cap at 95 never bites. */
  function TotalConfidence(d: Draw): (c: int)
    ensures 70 <= c <= 90
    ensures c == 70 <==> !d.emaBonus && !d.adxBonus && !d.macdBonus && !d.volumeBonus && !d.fibonacciBonus
    ensures c == 90 <==> d.emaBonus && d.adxBonus && d.macdBonus && d.volumeBonus && d.fibonacciBonus
  {
    var sum := 70 + Bonus(d.emaBonus, 5) + Bonus(d.adxBonus, 4) + Bonus(d.macdBonus, 3)
                  + Bonus(d.volumeBonus, 3) + Bonus(d.fibonacciBonus, 5);
    if sum < 95 then sum else 95
  }

  /** The acceptance test of analyzeCandle: the score reaches the threshold and the drawn
      strategy is enabled. */
  predicate Accepts(config: AnalysisConfig, d: Draw)
    ensures Accepts(config, d) ==> d.strategyId in config.enabledStrategies && config.minConfidence <= 90
    ensures config.minConfidence <= 70 && d.strategyId in config.enabledStrategies ==> Accepts(config, d)
  {
    TotalConfidence(d) >= config.minConfidence && d.strategyId in config.enabledStrategies
  }

  /** The signal analyzeCandle builds: the drawn direction and strategy, the configured
      asset and timeframe, the score, and the candle it was taken on. */
  function NewSignal(config: AnalysisConfig, d: Draw, candleId: string): (s: TradingSignal)
    ensures 70 <= s.confidence <= 90
    ensures s.direction == d.direction && s.strategy == d.strategyName
    ensures s.asset == config.currentAsset && s.timeframe == config.timeframe && s.candleId == candleId
  {
    TradingSignal(d.direction, config.currentAsset, config.timeframe, TotalConfidence(d), d.strategyName, candleId)
  }

  /** `[newSignal, ...prev].slice(0, 30)`: the new signal comes first, the buffer never
      exceeds 30 entries, and what follows the new signal is the newest part of the old
      buffer, in order. */
  function PushSignal(signals: seq<TradingSignal>, s: TradingSignal): (r: seq<TradingSignal>)
    ensures |r| == if |signals| < MaxSignals then |signals| + 1 else MaxSignals
    ensures r[0] == s
    ensures r[1..] == signals[..|r| - 1]
  {
    var all := [s] + signals;
    all[..if |all| < MaxSignals then |all| else MaxSignals]
  }

  /** `${mins}:${secs.padStart(2, '0')}` for a whole number of seconds. */
  function FormatTime(seconds: nat): (r: string)
    ensures |r| >= 4 && r[|r| - 3] == ':'
    ensures forall i :: 0 <= i < |r| && i != |r| - 3 ==> Text.IsDigit(r[i])
    ensures Text.DigitValue(r[|r| - 2]) < 6
    ensures Text.ParseNat(r[..|r| - 3]) * 60 + Text.DigitValue(r[|r| - 2]) * 10 + Text.DigitValue(r[|r| - 1]) == seconds
  {
    var mins := seconds / 60;
    var secs := seconds % 60;
    Text.PadTwoDigits(secs);
    Text.ParseNatToString(mins);
    var m := Text.NatToString(mins);
    var p := Text.PadTwo(secs);
    var r := m + ":" + p;
    assert r[..|r| - 3] == m;
    assert r[|r| - 2] == p[0] && r[|r| - 1] == p[1];
    r
  }

  function SumConfidence(signals: seq<TradingSignal>): int {
    if |signals| == 0 then 0 else SumConfidence(signals[..|signals| - 1]) + signals[|signals| - 1].confidence
  }

  /** The footer's "assertividade": the floor of the mean confidence, 0 without signals. */
  function AverageConfidence(signals: seq<TradingSignal>): (a: int)
    ensures |signals| == 0 ==> a == 0
    ensures |signals| > 0 ==> a * |signals| <= SumConfidence(signals) < (a + 1) * |signals|
  {
    if |signals| > 0 then SumConfidence(signals) / |signals| else 0
  }

  predicate ConfidencesWithin(signals: seq<TradingSignal>, lo: int, hi: int) {
    forall i :: 0 <= i < |signals| ==> lo <= signals[i].confidence <= hi
  }

  lemma {:induction false} SumBounds(signals: seq<TradingSignal>, lo: int, hi: int)
    requires ConfidencesWithin(signals, lo, hi)
    ensures |signals| * lo <= SumConfidence(signals) <= |signals| * hi
  {
    if |signals| > 0 {
      var init := signals[..|signals| - 1];
      assert ConfidencesWithin(init, lo, hi) by {
        forall i | 0 <= i < |init| ensures lo <= init[i].confidence <= hi {
          assert init[i] == signals[i];
        }
      }
      SumBounds(init, lo, hi);
      assert |signals| * lo == |init| * lo + lo;
      assert |signals| * hi == |init| * hi + hi;
    }
  }

  /** When every confidence lies in [lo, hi], so does the average of a non-empty buffer. */
  lemma AverageWithin(signals: seq<TradingSignal>, lo: int, hi: int)
    requires |signals| > 0 && ConfidencesWithin(signals, lo, hi)
    ensures lo <= AverageConfidence(signals) <= hi
  {
    var n := |signals|;
    var a := AverageConfidence(signals);
    SumBounds(signals, lo, hi);
    MulLess(lo, a + 1, n);
    MulAtMost(a, hi, n);
  }

  lemma MulLess(x: int, y: int, n: nat)
    requires n > 0 && x * n < y * n
    ensures x < y
  {
    assert (y - x) * n > 0;
  }

  lemma MulAtMost(x: int, y: int, n: nat)
    requires n > 0 && x * n <= y * n
    ensures x <= y
  {
    assert (y - x) * n >= 0;
  }

  /** The panel's state: the analysing switch, the signal buffer, the configuration, and
      the candle clock the gate reads. */
  class Panel {
    var isAnalyzing: bool
    var signals: seq<TradingSignal>
    var config: AnalysisConfig
    const clock: CandleClock

    /** Every buffered signal came from an accepted analysis. */
    predicate Valid()
      reads this
    {
      |signals| <= MaxSignals && ConfidencesWithin(signals, 70, 90)
    }

    /** The initial state; `strategyIds` stands for the ids of the strategy catalogue, all
        of which start enabled. */
    constructor (strategyIds: seq<string>)
      ensures Valid() && fresh(clock)
      ensures !isAnalyzing && signals == []
      ensures config == AnalysisConfig(M1, strategyIds, 75, false, "AUD/CAD OTC", true)
      ensures clock.currentCandle == None && clock.analyzedCandles == {}
    {
      isAnalyzing := false;
      signals := [];
      config := AnalysisConfig(M1, strategyIds, 75, false, "AUD/CAD OTC", true);
      clock := new CandleClock();
    }

    /** toggleAnalysis. */
    method ToggleAnalysis()
      requires Valid()
      modifies this
      ensures Valid()
      ensures isAnalyzing == !old(isAnalyzing)
      ensures signals == old(signals) && config == old(config)
    {
      isAnalyzing := !isAnalyzing;
    }

    /** The configuration panel hands back a whole new configuration. */
    method SetConfig(newConfig: AnalysisConfig)
      requires Valid()
      modifies this
      ensures Valid()
      ensures config == newConfig
      ensures isAnalyzing == old(isAnalyzing) && signals == old(signals)
    {
      config := newConfig;
    }

    /** One tick of the candle clock for the configured timeframe. */
    method TickClock(now: int)
      modifies clock
      ensures clock.currentCandle == Some(CalculateCandleInfo(now, config.timeframe))
      ensures clock.analyzedCandles == old(clock.analyzedCandles)
    {
      clock.Tick(now, config.timeframe);
    }

    /** analyzeCandle for the candle with the given id: a signal is stored iff the draw is
        accepted, and then it goes in front of the bounded buffer. */
    method AnalyzeCandle(d: Draw, candleId: string)
      requires Valid()
      modifies this
      ensures Valid()
      ensures signals == if Accepts(config, d) then PushSignal(old(signals), NewSignal(config, d, candleId)) else old(signals)
      ensures isAnalyzing == old(isAnalyzing) && config == old(config)
    {
      if TotalConfidence(d) >= config.minConfidence && d.strategyId in config.enabledStrategies {
        var s := NewSignal(config, d, candleId);
        var r := PushSignal(signals, s);
        assert ConfidencesWithin(r, 70, 90) by {
          forall i | 0 <= i < |r| ensures 70 <= r[i].confidence <= 90 {
            if i > 0 {
              assert r[i] == r[1..][i - 1] == signals[i - 1];
            }
          }
        }
        signals := r;
      }
    }

    /** The trigger effect: it fires only while analysing, with a candle present, closed and
        not yet analysed; a firing analyses and then marks the candle, so it never fires
        twice for one candle. */
    method Gate(d: Draw) returns (fired: bool)
      requires Valid()
      modifies this, clock
      ensures Valid()
      ensures clock.currentCandle == old(clock.currentCandle)
      ensures fired <==> (old(isAnalyzing) && old(clock.currentCandle).Some?
        && old(clock.currentCandle).value.isClosed
        && old(clock.CanAnalyzeCandle(clock.currentCandle.value.id)))
      ensures fired ==> clock.analyzedCandles == old(clock.analyzedCandles) + {clock.currentCandle.value.id}
      ensures fired ==> !clock.CanAnalyzeCandle(clock.currentCandle.value.id)
      ensures !fired ==> clock.analyzedCandles == old(clock.analyzedCandles)
      ensures fired && Accepts(config, d) ==>
        signals == PushSignal(old(signals), NewSignal(config, d, clock.currentCandle.value.id))
      ensures !(fired && Accepts(config, d)) ==> signals == old(signals)
      ensures isAnalyzing == old(isAnalyzing) && config == old(config)
    {
      fired := false;
      if !isAnalyzing || clock.currentCandle.None? {
        return;
      }
      var candle := clock.currentCandle.value;
      if candle.isClosed && clock.CanAnalyzeCandle(candle.id) {
        AnalyzeCandle(d, candle.id);
        clock.MarkCandleAnalyzed(candle.id);
        fired := true;
      }
    }

    /** Any run of clock ticks that all fall in one candle window, each followed by a run
        of the gate: the gate fires at most once over the whole run. */
    method TicksInOneWindow(nows: seq<int>, draws: seq<Draw>) returns (firings: nat)
      requires Valid()
      requires |draws| == |nows|
      requires forall k :: 0 <= k < |nows| ==>
        nows[k] / config.timeframe.Millis() == nows[0] / config.timeframe.Millis()
      modifies this, clock
      ensures Valid()
      ensures firings <= 1
    {
      firings := 0;
      var k := 0;
      while k < |nows|
        invariant 0 <= k <= |nows|
        invariant Valid() && config == old(config)
        invariant firings <= 1
        invariant firings == 1 ==> 0 < |nows| && CalculateCandleInfo(nows[0], config.timeframe).id in clock.analyzedCandles
      {
        TickClock(nows[k]);
        SameWindowSameCandle(nows[0], nows[k], config.timeframe);
        var fired := Gate(draws[k]);
        if fired {
          firings := firings + 1;
        }
        k := k + 1;
      }
    }
  }
}
