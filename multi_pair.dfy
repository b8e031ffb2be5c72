/** The multi-pair scheduler of useMultiPairAnalysis (src/hooks/useMultiPairAnalysis.ts):
    one "live" pair rotates through the selected pairs, and a per-pair ledger records which
    candles were analysed for which pair and when each pair was last analysed. */
module MultiPairAnalysis {
  import opened Signals
  import opened CandleSync
  import Lists
  import Arith

  /** The hook's state record. */
  datatype PairAnalysisState = PairAnalysisState(
    currentPair: string,
    analyzedCandles: map<string, set<string>>,
    lastAnalysisTime: map<string, int>)

  const InitialState := PairAnalysisState("", map[], map[])

  /** The rotation step: the pair after `indexOf(current)` in list order, wrapping round.
      A pair missing from the list sits at index -1, so rotation falls back to index 0. */
  function NextPair(selectedPairs: seq<string>, currentPair: string): (next: string)
    requires |selectedPairs| > 0
    ensures next in selectedPairs
  {
    var currentIndex := Lists.IndexOf(selectedPairs, currentPair);
    selectedPairs[(currentIndex + 1) % |selectedPairs|]
  }

  /** A pair missing from the list rotates to index 0. */
  lemma NextPairMissing(selectedPairs: seq<string>, currentPair: string)
    requires |selectedPairs| > 0 && currentPair !in selectedPairs
    ensures NextPair(selectedPairs, currentPair) == selectedPairs[0]
  {
    assert (-1 + 1) % |selectedPairs| == 0;
  }

  /** In a list of distinct names, the pair at index i rotates to index (i + 1) mod n. */
  lemma NextPairAt(selectedPairs: seq<string>, i: nat)
    requires Lists.NoDuplicates(selectedPairs) && i < |selectedPairs|
    ensures NextPair(selectedPairs, selectedPairs[i]) == selectedPairs[if i + 1 == |selectedPairs| then 0 else i + 1]
  {
    var n := |selectedPairs|;
    var k := Lists.IndexOf(selectedPairs, selectedPairs[i]);
    assert k == i by {
      assert selectedPairs[k] == selectedPairs[i];
    }
    if i + 1 < n {
      Arith.DivModUnique(i + 1, n, 0, i + 1);
    } else {
      Arith.DivModUnique(i + 1, n, 1, 0);
    }
  }

  /** The updater of rotatePairs: only the live pair changes. */
  function Rotated(prev: PairAnalysisState, selectedPairs: seq<string>): (r: PairAnalysisState)
    requires |selectedPairs| > 0
    ensures r.currentPair in selectedPairs
    ensures r.analyzedCandles == prev.analyzedCandles && r.lastAnalysisTime == prev.lastAnalysisTime
  {
    prev.(currentPair := NextPair(selectedPairs, prev.currentPair))
  }

  /** The live pair after m rotations. */
  function RotateTimes(selectedPairs: seq<string>, start: string, m: nat): (p: string)
    requires |selectedPairs| > 0
    ensures m > 0 ==> p in selectedPairs
  {
    if m == 0 then start else NextPair(selectedPairs, RotateTimes(selectedPairs, start, m - 1))
  }

  /** With distinct names, rotation walks the list in its own order: after m steps from
      position i the live pair is the one at position (i + m) mod n. */
  lemma {:induction false} RotationOrder(selectedPairs: seq<string>, i: nat, m: nat)
    requires Lists.NoDuplicates(selectedPairs) && i < |selectedPairs|
    ensures RotateTimes(selectedPairs, selectedPairs[i], m) == selectedPairs[(i + m) % |selectedPairs|]
  {
    RotationSteps(selectedPairs, i, m);
    Arith.ModAsSteps(i, m, |selectedPairs|);
  }

  lemma {:induction false} RotationSteps(selectedPairs: seq<string>, i: nat, m: nat)
    requires Lists.NoDuplicates(selectedPairs) && i < |selectedPairs|
    ensures Arith.StepIndex(i, m, |selectedPairs|) < |selectedPairs|
    ensures RotateTimes(selectedPairs, selectedPairs[i], m) == selectedPairs[Arith.StepIndex(i, m, |selectedPairs|)]
  {
    var n := |selectedPairs|;
    if m > 0 {
      RotationSteps(selectedPairs, i, m - 1);
      var j := Arith.StepIndex(i, m - 1, n);
      var p := RotateTimes(selectedPairs, selectedPairs[i], m - 1);
      assert p == selectedPairs[j];
      NextPairAt(selectedPairs, j);
      assert RotateTimes(selectedPairs, selectedPairs[i], m) == NextPair(selectedPairs, p);
    }
  }

  /** A live pair that is no longer selected: the first rotation goes to index 0, and from
      there on the list is walked in order. */
  lemma {:induction false} RotationFromMissing(selectedPairs: seq<string>, start: string, m: nat)
    requires Lists.NoDuplicates(selectedPairs) && |selectedPairs| > 0 && start !in selectedPairs
    ensures RotateTimes(selectedPairs, start, m + 1) == selectedPairs[m % |selectedPairs|]
  {
    RotateFromFirst(selectedPairs, start, m);
    RotationOrder(selectedPairs, 0, m);
    assert (0 + m) % |selectedPairs| == m % |selectedPairs|;
  }

  lemma {:induction false} RotateFromFirst(selectedPairs: seq<string>, start: string, m: nat)
    requires |selectedPairs| > 0 && start !in selectedPairs
    ensures RotateTimes(selectedPairs, start, m + 1) == RotateTimes(selectedPairs, selectedPairs[0], m)
  {
    if m == 0 {
      NextPairMissing(selectedPairs, start);
    } else {
      RotateFromFirst(selectedPairs, start, m - 1);
      var p := RotateTimes(selectedPairs, start, m);
      assert p == RotateTimes(selectedPairs, selectedPairs[0], m - 1);
      assert RotateTimes(selectedPairs, start, m + 1) == NextPair(selectedPairs, p);
      assert RotateTimes(selectedPairs, selectedPairs[0], m) == NextPair(selectedPairs, p);
    }
  }

  /** Coverage: within any n consecutive rotations every selected pair is live once, so
      after M rotations each of the n pairs has been live at least floor(M / n) times. */
  lemma {:induction false} RotationCoverage(selectedPairs: seq<string>, i: nat, m: nat, j: nat)
    requires Lists.NoDuplicates(selectedPairs) && i < |selectedPairs| && j < |selectedPairs|
    ensures exists k :: m < k <= m + |selectedPairs| && RotateTimes(selectedPairs, selectedPairs[i], k) == selectedPairs[j]
  {
    var k := Arith.CoverOffset(i, m, j, |selectedPairs|);
    RotationOrder(selectedPairs, i, k);
  }

  /** Rotation is periodic with period n. */
  lemma {:induction false} RotationPeriodic(selectedPairs: seq<string>, i: nat, m: nat)
    requires Lists.NoDuplicates(selectedPairs) && i < |selectedPairs|
    ensures RotateTimes(selectedPairs, selectedPairs[i], m + |selectedPairs|) == RotateTimes(selectedPairs, selectedPairs[i], m)
  {
    Arith.StepIndexPeriodic(i, m, |selectedPairs|);
    SameStepSamePair(selectedPairs, i, m + |selectedPairs|, m);
  }

  lemma {:induction false} SameStepSamePair(selectedPairs: seq<string>, i: nat, m1: nat, m2: nat)
    requires Lists.NoDuplicates(selectedPairs) && i < |selectedPairs|
    requires Arith.StepIndex(i, m1, |selectedPairs|) == Arith.StepIndex(i, m2, |selectedPairs|)
    ensures RotateTimes(selectedPairs, selectedPairs[i], m1) == RotateTimes(selectedPairs, selectedPairs[i], m2)
  {
    RotationSteps(selectedPairs, i, m1);
    RotationSteps(selectedPairs, i, m2);
  }

  /** The three-pair scenario: starting at A, four rotations give B, C, A, B. */
  lemma ThreePairScenario()
    ensures RotateTimes(["A", "B", "C"], "A", 1) == "B"
    ensures RotateTimes(["A", "B", "C"], "A", 2) == "C"
    ensures RotateTimes(["A", "B", "C"], "A", 3) == "A"
    ensures RotateTimes(["A", "B", "C"], "A", 4) == "B"
  {
    var s := ["A", "B", "C"];
    assert s[0] == "A" && s[1] == "B" && s[2] == "C";
    assert Lists.NoDuplicates(s);
    NextPairAt(s, 0);
    NextPairAt(s, 1);
    NextPairAt(s, 2);
  }

  /** Why distinct names matter: `indexOf` finds the first occurrence, so with a repeated
      name the rotation can stall and never reach the last pair. */
  lemma DuplicateStalls(m: nat)
    ensures RotateTimes(["A", "A", "B"], "A", m) == "A"
  {
    StallStep(["A", "A", "B"]);
    FixedPointStays(["A", "A", "B"], "A", m);
  }

  /** A pair that rotation maps to itself stays live forever. */
  lemma {:induction false} FixedPointStays(selectedPairs: seq<string>, p: string, m: nat)
    requires |selectedPairs| > 0 && NextPair(selectedPairs, p) == p
    ensures RotateTimes(selectedPairs, p, m) == p
  {
    if m > 0 {
      FixedPointStays(selectedPairs, p, m - 1);
    }
  }

  lemma StallStep(s: seq<string>)
    requires s == ["A", "A", "B"]
    ensures NextPair(s, "A") == "A"
  {
    assert s[0] == "A" && s[1] == "A";
    assert Lists.IndexOf(s, "A") == 0;
    assert (0 + 1) % |s| == 1;
  }

  /** canAnalyzePairCandle: a missing per-pair set counts as empty. */
  predicate CanAnalyzePairCandle(s: PairAnalysisState, pairName: string, candleId: string) {
    var pairCandles := if pairName in s.analyzedCandles then s.analyzedCandles[pairName] else {};
    candleId !in pairCandles
  }

  /** `lastAnalysisTime.get(pairName) || 0`. */
  function LastAnalysis(s: PairAnalysisState, pairName: string): int {
    if pairName in s.lastAnalysisTime then s.lastAnalysisTime[pairName] else 0
  }

  /** The updater of markPairCandleAnalyzed, with `Date.now()` passed in as `now`. */
  function Marked(prev: PairAnalysisState, pairName: string, candleId: string, now: int): (s: PairAnalysisState)
    ensures s.currentPair == prev.currentPair
    ensures pairName in s.analyzedCandles && candleId in s.analyzedCandles[pairName]
    ensures pairName in prev.analyzedCandles ==> prev.analyzedCandles[pairName] <= s.analyzedCandles[pairName]
    ensures pairName in s.lastAnalysisTime && s.lastAnalysisTime[pairName] == now
  {
    var pairCandles := if pairName in prev.analyzedCandles then prev.analyzedCandles[pairName] else {};
    prev.(analyzedCandles := prev.analyzedCandles[pairName := pairCandles + {candleId}],
          lastAnalysisTime := prev.lastAnalysisTime[pairName := now])
  }

  /** Marking adds the id to the pair's set, stamps the pair's time, and leaves the live
      pair and every other pair's entries exactly as they were. */
  lemma MarkedEffect(prev: PairAnalysisState, pairName: string, candleId: string, now: int)
    ensures var s := Marked(prev, pairName, candleId, now);
      && s.currentPair == prev.currentPair
      && !CanAnalyzePairCandle(s, pairName, candleId)
      && LastAnalysis(s, pairName) == now
      && s.analyzedCandles.Keys == prev.analyzedCandles.Keys + {pairName}
      && (forall id :: CanAnalyzePairCandle(s, pairName, id) <==> CanAnalyzePairCandle(prev, pairName, id) && id != candleId)
      && (forall q :: q != pairName ==> (q in s.analyzedCandles <==> q in prev.analyzedCandles))
      && (forall q :: q != pairName && q in prev.analyzedCandles ==> s.analyzedCandles[q] == prev.analyzedCandles[q])
      && (forall q, id :: q != pairName ==> CanAnalyzePairCandle(s, q, id) == CanAnalyzePairCandle(prev, q, id))
      && (forall q :: q != pairName ==> LastAnalysis(s, q) == LastAnalysis(prev, q))
  {
  }

  /** Marking the same pair and candle again changes nothing but the time stamp. */
  lemma MarkedIdempotent(prev: PairAnalysisState, pairName: string, candleId: string, t1: int, t2: int)
    ensures Marked(Marked(prev, pairName, candleId, t1), pairName, candleId, t2) == Marked(prev, pairName, candleId, t2)
  {
    var s1 := Marked(prev, pairName, candleId, t1);
    var pairCandles := if pairName in prev.analyzedCandles then prev.analyzedCandles[pairName] else {};
    assert s1.analyzedCandles[pairName] == pairCandles + {candleId};
    assert (pairCandles + {candleId}) + {candleId} == pairCandles + {candleId};
    assert s1.analyzedCandles[pairName := pairCandles + {candleId}] == s1.analyzedCandles;
  }

  /** shouldAnalyzePair: the current candle is closed, its id is free in the candle
      clock's ledger and in the pair's own ledger, and at least one timeframe has passed
      since the pair was last analysed. */
  predicate ShouldAnalyzePair(s: PairAnalysisState, currentCandle: Option<CandleInfo>,
                              analyzedCandles: set<string>, pairName: string, now: int, tf: Timeframe)
  {
    match currentCandle
    case None => false
    case Some(candle) =>
      && candle.isClosed
      && candle.id !in analyzedCandles
      && CanAnalyzePairCandle(s, pairName, candle.id)
      && now - LastAnalysis(s, pairName) >= tf.Minutes() * 60 * 1000
  }

  /** Once a pair has been marked for the current candle it is not due again for that
      candle, at any later instant; other pairs keep their answer. */
  lemma MarkedNotDueAgain(s: PairAnalysisState, candle: CandleInfo, analyzedCandles: set<string>,
                          pairName: string, t: int, now: int, tf: Timeframe)
    ensures !ShouldAnalyzePair(Marked(s, pairName, candle.id, t), Some(candle), analyzedCandles, pairName, now, tf)
    ensures forall q :: q != pairName ==>
      ShouldAnalyzePair(Marked(s, pairName, candle.id, t), Some(candle), analyzedCandles, q, now, tf) ==
      ShouldAnalyzePair(s, Some(candle), analyzedCandles, q, now, tf)
  {
    MarkedEffect(s, pairName, candle.id, t);
  }

  /** After an analysis at time t the pair is not due again before a whole timeframe has
      passed, whatever the candle. */
  lemma MinimumInterval(s: PairAnalysisState, candleId: string, t: int, currentCandle: Option<CandleInfo>,
                        analyzedCandles: set<string>, pairName: string, now: int, tf: Timeframe)
    requires now < t + tf.Millis()
    ensures !ShouldAnalyzePair(Marked(s, pairName, candleId, t), currentCandle, analyzedCandles, pairName, now, tf)
  {
    MarkedEffect(s, pairName, candleId, t);
  }

  /** The hook as an object: the state record plus its own candle clock. */
  class MultiPairScheduler {
    var state: PairAnalysisState
    const clock: CandleClock

    constructor ()
      ensures state == InitialState && fresh(clock)
      ensures clock.currentCandle == None && clock.analyzedCandles == {}
    {
      state := InitialState;
      clock := new CandleClock();
    }

    /** The effect's first-pair initialisation: with nothing live yet, the first selected
        pair becomes live. Inactive or with no pairs, nothing happens. */
    method Initialize(selectedPairs: seq<string>, isActive: bool)
      modifies this
      ensures unchanged(clock)
      ensures isActive && |selectedPairs| > 0 && old(state.currentPair) == "" ==>
        state == old(state).(currentPair := selectedPairs[0])
      ensures !(isActive && |selectedPairs| > 0 && old(state.currentPair) == "") ==> state == old(state)
    {
      if !isActive || |selectedPairs| == 0 {
        return;
      }
      if state.currentPair == "" {
        state := state.(currentPair := selectedPairs[0]);
      }
    }

    /** One firing of the rotation interval. Inactive or with no pairs it is not running. */
    method Rotate(selectedPairs: seq<string>, isActive: bool)
      modifies this
      ensures unchanged(clock)
      ensures isActive && |selectedPairs| > 0 ==> state == Rotated(old(state), selectedPairs)
      ensures !(isActive && |selectedPairs| > 0) ==> state == old(state)
      ensures isActive && |selectedPairs| > 0 ==> state.currentPair in selectedPairs
    {
      if !isActive || |selectedPairs| == 0 {
        return;
      }
      state := Rotated(state, selectedPairs);
    }

    /** markPairCandleAnalyzed. When the id is the clock's current candle, the pair is no
        longer due for it at any instant; every other pair keeps its answer. */
    method MarkPairCandleAnalyzed(pairName: string, candleId: string, now: int)
      modifies this
      ensures unchanged(clock)
      ensures state == Marked(old(state), pairName, candleId, now)
      ensures !CanAnalyzePairCandle(state, pairName, candleId)
      ensures clock.currentCandle.Some? && clock.currentCandle.value.id == candleId ==>
        forall t: int, tf: Timeframe :: !ShouldAnalyze(pairName, t, tf)
      ensures forall q, t: int, tf: Timeframe :: q != pairName ==>
        ShouldAnalyze(q, t, tf) == old(ShouldAnalyze(q, t, tf))
    {
      MarkedEffect(state, pairName, candleId, now);
      state := Marked(state, pairName, candleId, now);
    }

    /** shouldAnalyzePair, reading the candle clock's current candle and ledger. */
    predicate ShouldAnalyze(pairName: string, now: int, tf: Timeframe)
      reads this, clock
    {
      ShouldAnalyzePair(state, clock.currentCandle, clock.analyzedCandles, pairName, now, tf)
    }
  }

  /** No method of the scheduler marks its candle clock's ledger, which starts empty, so
      every tick of a scheduler's clock leaves that ledger empty and the ledger check never
      blocks the candle the tick has just published. */
  method ClockLedgerNeverBlocks(sched: MultiPairScheduler, now: int, tf: Timeframe) returns (free: bool)
    requires sched.clock.analyzedCandles == {}
    modifies sched.clock
    ensures sched.clock.currentCandle == Some(CalculateCandleInfo(now, tf))
    ensures sched.clock.analyzedCandles == {}
    ensures free && sched.clock.CanAnalyzeCandle(sched.clock.currentCandle.value.id)
  {
    sched.clock.Tick(now, tf);
    free := sched.clock.CanAnalyzeCandle(sched.clock.currentCandle.value.id);
  }
}
