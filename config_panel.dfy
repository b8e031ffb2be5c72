/** The configuration handlers (src/components/ConfigPanel.tsx): each builds a new analysis
    configuration from the old one by changing a single field. */
module ConfigPanel {
  import opened Signals
  import Lists
  import Arith
  import AnalyzerPanel

  /** toggleStrategy: the strategy list is toggled, every other field is kept. */
  function ToggleStrategy(config: AnalysisConfig, strategyId: string): (r: AnalysisConfig)
    ensures r.(enabledStrategies := config.enabledStrategies) == config
    ensures strategyId in r.enabledStrategies <==> strategyId !in config.enabledStrategies
    ensures strategyId !in config.enabledStrategies ==> r.enabledStrategies == config.enabledStrategies + [strategyId]
    ensures strategyId in config.enabledStrategies ==> Lists.IsSubsequence(r.enabledStrategies, config.enabledStrategies)
    ensures strategyId in config.enabledStrategies ==> forall other :: other != strategyId ==>
      Lists.Count(r.enabledStrategies, other) == Lists.Count(config.enabledStrategies, other)
  {
    Lists.RemoveAllSpec(config.enabledStrategies, strategyId);
    config.(enabledStrategies := Lists.Toggle(config.enabledStrategies, strategyId))
  }

  /** Switching a strategy off means the panel rejects every draw of it. */
  lemma ToggledOffRejected(config: AnalysisConfig, d: AnalyzerPanel.Draw)
    requires d.strategyId in config.enabledStrategies
    ensures !AnalyzerPanel.Accepts(ToggleStrategy(config, d.strategyId), d)
  {
  }

  /** The asset field. */
  function SetCurrentAsset(config: AnalysisConfig, asset: string): (r: AnalysisConfig)
    ensures r.currentAsset == asset
    ensures r.(currentAsset := config.currentAsset) == config
  {
    config.(currentAsset := asset)
  }

  /** One of the timeframe buttons. */
  function SelectTimeframe(config: AnalysisConfig, tf: Timeframe): (r: AnalysisConfig)
    ensures r.timeframe == tf
    ensures r.(timeframe := config.timeframe) == config
  {
    config.(timeframe := tf)
  }

  /** The wait-for-close switch. */
  function SetWaitForCandleClose(config: AnalysisConfig, checked: bool): (r: AnalysisConfig)
    ensures r.waitForCandleClose == checked
    ensures r.(waitForCandleClose := config.waitForCandleClose) == config
  {
    config.(waitForCandleClose := checked)
  }

  /** The confidence slider. */
  function SetMinConfidence(config: AnalysisConfig, value: int): (r: AnalysisConfig)
    ensures r.minConfidence == value
    ensures r.(minConfidence := config.minConfidence) == config
  {
    config.(minConfidence := value)
  }

  /** The positions of the slider: 50 to 95 in steps of 5. */
  function SliderValues(): (vs: seq<int>)
    ensures |vs| == 10 && vs[0] == 50 && vs[9] == 95
    ensures forall i :: 0 <= i < |vs| - 1 ==> vs[i + 1] == vs[i] + 5
  {
    seq(10, i requires 0 <= i < 10 => 50 + 5 * i)
  }

  /** A value is offered iff it is a multiple of 5 between 50 and 95. */
  lemma SliderValuesSpec(v: int)
    ensures v in SliderValues() <==> 50 <= v <= 95 && v % 5 == 0
  {
    var vs := SliderValues();
    if v in vs {
      var i :| 0 <= i < |vs| && vs[i] == v;
      Arith.ModShift(0, 10 + i, 5);
    }
    if 50 <= v <= 95 && v % 5 == 0 {
      var i := (v - 50) / 5;
      Arith.ModShift(v, -10, 5);
      assert (v - 50) % 5 == 0;
      assert vs[i] == v;
    }
  }
}
