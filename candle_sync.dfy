/** The candle clock and the per-candle ledger of useCandleSync
    (src/hooks/useCandleSync.ts): from the current instant and a timeframe it computes the
    candle the instant falls in, and it remembers which candle ids were already analysed. */
module CandleSync {
  import opened Signals
  import Text
  import Arith

  /** Local-clock fields of an instant (UTC): `getMinutes`, `getSeconds`, milliseconds. */
  function MinuteOf(now: int): int { (now / 60000) % 60 }
  function SecondOf(now: int): int { (now / 1000) % 60 }
  function MillisOf(now: int): int { now % 1000 }

  /** `Math.floor(currentMinute / timeframeMinutes) * timeframeMinutes`. */
  function StartMinute(minute: nat, tf: Timeframe): (s: nat)
    requires minute < 60
    ensures s % tf.Minutes() == 0
    ensures s <= minute < s + tf.Minutes() && s + tf.Minutes() <= 60
  {
    Arith.FloorToDivisor(minute, tf.Minutes());
    (minute / tf.Minutes()) * tf.Minutes()
  }

  /** `${openTime.getTime()}-${timeframe}`. */
  function CandleIdOf(openTime: int, tf: Timeframe): string {
    Text.IntToString(openTime) + "-" + tf.Label()
  }

  /** calculateCandleInfo with the clock read passed in as `now`. */
  function CalculateCandleInfo(now: int, tf: Timeframe): (c: CandleInfo)
    ensures c.timeframe == tf
    ensures c.openTime % 60000 == 0
    ensures c.openTime <= now < c.closeTime
    ensures c.closeTime == c.openTime + tf.Millis()
    ensures c.secondsRemaining == (c.closeTime - now) / 1000
    ensures 0 <= c.secondsRemaining <= tf.Minutes() * 60
    ensures c.isClosed <==> c.secondsRemaining <= 5
    ensures c.id == CandleIdOf(c.openTime, tf)
  {
    ClockFields(now);
    var minute := MinuteOf(now);
    var startMinute := StartMinute(minute, tf);
    Arith.ModShift(0, now / 60000 - (minute - startMinute), 60000);
    // openTime.setMinutes(candleStartMinute, 0, 0)
    var openTime := now - MillisOf(now) - SecondOf(now) * 1000 - (minute - startMinute) * 60000;
    // closeTime.setMinutes(candleStartMinute + timeframeMinutes, 0, 0), rolling into the next hour
    var hourStart := openTime - startMinute * 60000;
    var closeTime := hourStart + (startMinute + tf.Minutes()) * 60000;
    var totalMillis := closeTime - now;
    var secondsRemaining := if totalMillis / 1000 < 0 then 0 else totalMillis / 1000;
    CandleInfo(
      CandleIdOf(openTime, tf),
      openTime,
      closeTime,
      tf,
      secondsRemaining,
      secondsRemaining <= 5)
  }

  /** The local-clock fields split the instant into whole minutes and the rest. */
  lemma ClockFields(now: int)
    ensures 0 <= MinuteOf(now) < 60 && 0 <= SecondOf(now) < 60 && 0 <= MillisOf(now) < 1000
    ensures SecondOf(now) * 1000 + MillisOf(now) == now % 60000
    ensures now == (now / 60000) * 60000 + now % 60000
  {
    var q1 := now / 1000;
    assert now == q1 * 1000 + MillisOf(now);
    assert q1 == (q1 / 60) * 60 + SecondOf(now);
    assert now == (q1 / 60) * 60000 + (SecondOf(now) * 1000 + MillisOf(now));
    Arith.DivModUnique(now, 60000, q1 / 60, SecondOf(now) * 1000 + MillisOf(now));
  }

  /** The candle opens at the instant rounded down to a multiple of the timeframe:
      every timeframe divides the hour, so aligning within the hour aligns globally. */
  lemma OpenTimeIsAligned(now: int, tf: Timeframe)
    ensures CalculateCandleInfo(now, tf).openTime == (now / tf.Millis()) * tf.Millis()
  {
    var t := tf.Minutes();
    var q := now / 60000;
    var minute := q % 60;
    OpenTimeInMinutes(now, tf);
    AlignMinuteCount(q, t);
    Arith.DivDiv(now, 60000, t);
    ScaleMinutes(CalculateCandleInfo(now, tf).openTime, q - (minute - (minute / t) * t), q / t, t);
  }

  lemma ScaleMinutes(open: int, slot: int, k: int, t: nat)
    requires open == slot * 60000 && slot == k * t
    ensures open == k * (t * 60000)
  {
  }

  /** The open time is the instant's whole minute count, taken back to the slot start. */
  lemma OpenTimeInMinutes(now: int, tf: Timeframe)
    ensures var minute := (now / 60000) % 60;
      CalculateCandleInfo(now, tf).openTime == (now / 60000 - (minute - (minute / tf.Minutes()) * tf.Minutes())) * 60000
  {
    ClockFields(now);
  }

  /** Taking the minute of the hour back to a multiple of t is the same as rounding the
      whole minute count down to a multiple of t, because t divides 60. */
  lemma AlignMinuteCount(q: int, t: nat)
    requires 1 <= t <= 5 && 60 % t == 0
    ensures q - (q % 60 - ((q % 60) / t) * t) == (q / t) * t
  {
    var minute := q % 60;
    assert minute - (minute / t) * t == minute % t by {
      assert minute == (minute / t) * t + minute % t;
    }
    Arith.ModOfModDivisor(q, t);
    assert q == (q / t) * t + q % t;
  }

  /** Two instants in the same timeframe-aligned window get the same candle, whatever
      the metering within it: same id, same open and close. */
  lemma SameWindowSameCandle(now1: int, now2: int, tf: Timeframe)
    requires now1 / tf.Millis() == now2 / tf.Millis()
    ensures CalculateCandleInfo(now1, tf).id == CalculateCandleInfo(now2, tf).id
    ensures CalculateCandleInfo(now1, tf).openTime == CalculateCandleInfo(now2, tf).openTime
    ensures CalculateCandleInfo(now1, tf).closeTime == CalculateCandleInfo(now2, tf).closeTime
  {
    OpenTimeIsAligned(now1, tf);
    OpenTimeIsAligned(now2, tf);
  }

  /** The id identifies the candle: equal ids mean equal open times and timeframes. */
  lemma CandleIdInjective(o1: int, t1: Timeframe, o2: int, t2: Timeframe)
    ensures CandleIdOf(o1, t1) == CandleIdOf(o2, t2) <==> o1 == o2 && t1 == t2
  {
    var s1, s2 := CandleIdOf(o1, t1), CandleIdOf(o2, t2);
    if s1 == s2 {
      var a, b := Text.IntToString(o1), Text.IntToString(o2);
      assert |t1.Label()| == 2 == |t2.Label()|;
      assert s1[|s1| - 2..] == t1.Label();
      assert s2[|s2| - 2..] == t2.Label();
      LabelInjective(t1, t2);
      assert |a| == |b|;
      assert s1[..|a|] == a;
      assert s2[..|b|] == b;
      Text.IntToStringInjective(o1, o2);
    }
  }

  /** Instants in different windows get different ids, so a later candle is never
      mistaken for one already analysed. */
  lemma DifferentWindowDifferentId(now1: int, now2: int, tf: Timeframe)
    requires now1 / tf.Millis() != now2 / tf.Millis()
    ensures CalculateCandleInfo(now1, tf).id != CalculateCandleInfo(now2, tf).id
  {
    OpenTimeIsAligned(now1, tf);
    OpenTimeIsAligned(now2, tf);
    var w := tf.Millis();
    var o1, o2 := (now1 / w) * w, (now2 / w) * w;
    assert o1 != o2 by {
      if o1 == o2 {
        Arith.MulCancel(now1 / w, now2 / w, w);
      }
    }
    CandleIdInjective(o1, tf, o2, tf);
  }

  /** The hook's state: the candle published by the last tick and the set of
      candle ids already analysed. The set only grows. */
  class CandleClock {
    var currentCandle: Option<CandleInfo>
    var analyzedCandles: set<string>

    constructor ()
      ensures currentCandle == None && analyzedCandles == {}
    {
      currentCandle := None;
      analyzedCandles := {};
    }

    /** One run of updateCandle: the candle is recomputed from the instant alone. */
    method Tick(now: int, tf: Timeframe)
      modifies this
      ensures currentCandle == Some(CalculateCandleInfo(now, tf))
      ensures analyzedCandles == old(analyzedCandles)
    {
      currentCandle := Some(CalculateCandleInfo(now, tf));
    }

    /** canAnalyzeCandle. */
    predicate CanAnalyzeCandle(candleId: string)
      reads this
    {
      candleId !in analyzedCandles
    }

    /** markCandleAnalyzed: adds the id; nothing is ever removed. */
    method MarkCandleAnalyzed(candleId: string)
      modifies this
      ensures analyzedCandles == old(analyzedCandles) + {candleId}
      ensures currentCandle == old(currentCandle)
      ensures !CanAnalyzeCandle(candleId)
      ensures forall other :: other != candleId ==> CanAnalyzeCandle(other) == old(CanAnalyzeCandle(other))
    {
      analyzedCandles := analyzedCandles + {candleId};
    }
  }

  /** The concrete minute-candle scenario: at 12:00:00 a fresh candle with 60 s left,
      open; at 12:00:57 the same candle with 3 s left, counted as closed. */
  lemma MinuteScenario(noon: int, later: int)
    requires noon == 43200000 && later == noon + 57000
    ensures var c := CalculateCandleInfo(noon, M1);
      c.openTime == noon && c.closeTime == noon + 60000 && c.secondsRemaining == 60 && !c.isClosed
    ensures var c := CalculateCandleInfo(later, M1);
      c.openTime == noon && c.secondsRemaining == 3 && c.isClosed
    ensures CalculateCandleInfo(noon, M1).id == CalculateCandleInfo(later, M1).id
  {
    assert noon / 60000 == 720 && later / 60000 == 720;
    assert noon / 1000 == 43200 && later / 1000 == 43257;
    assert MinuteOf(noon) == 0 && MinuteOf(later) == 0;
    assert StartMinute(0, M1) == 0;
    assert MillisOf(noon) == 0 && MillisOf(later) == 0;
    assert SecondOf(noon) == 0 && SecondOf(later) == 57;
    SameWindowSameCandle(noon, later, M1);
  }
}
