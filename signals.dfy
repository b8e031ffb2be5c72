/** The shapes shared by the scheduler and the panels: the chart timeframe, the description
    of one candle (time window) and the analysis configuration (src/types/signals.ts). */
module Signals {

  datatype Option<T> = None | Some(value: T)

  /** The four chart timeframes the configuration offers. */
  datatype Timeframe = M1 | M2 | M3 | M5 {

    /** `parseInt(timeframe)`: the width in minutes. */
    function Minutes(): (m: nat)
      ensures 1 <= m <= 5 && 60 % m == 0
    {
      match this
      case M1 => 1
      case M2 => 2
      case M3 => 3
      case M5 => 5
    }

    /** The text the source uses for it, '1m' .. '5m'. */
    function Label(): (s: string)
      ensures |s| == 2 && s[1] == 'm'
    {
      match this
      case M1 => "1m"
      case M2 => "2m"
      case M3 => "3m"
      case M5 => "5m"
    }

    /** The width in milliseconds. */
    function Millis(): (w: nat)
      ensures w == Minutes() * 60000
    {
      Minutes() * 60000
    }
  }

  /** Distinct timeframes carry distinct labels. */
  lemma LabelInjective(a: Timeframe, b: Timeframe)
    ensures a.Label() == b.Label() ==> a == b
  {
    if a.Label() == b.Label() {
      assert a.Label()[0] == b.Label()[0];
    }
  }

  /** One candle: instants are integer milliseconds since the epoch. */
  datatype CandleInfo = CandleInfo(
    id: string,
    openTime: int,
    closeTime: int,
    timeframe: Timeframe,
    secondsRemaining: int,
    isClosed: bool)

  datatype AnalysisConfig = AnalysisConfig(
    timeframe: Timeframe,
    enabledStrategies: seq<string>,
    minConfidence: int,
    autoAnalysis: bool,
    currentAsset: string,
    waitForCandleClose: bool)
}
