/** The one-minute binary-option decision tables (src/lib/binaryOptionsAnalysis.ts): candle
    body and wick shares, the entry-timing table, the filter and trigger lists, the win
    probability, the candle timer and the next-candle forecast. Prices and percentages are
    real numbers; the texts the source writes into its lists are kept as tagged entries that
    carry the values the text shows. */
module BinaryOptions {
  import opened Signals
  import CandleSync

  datatype Strength = FORTE | MODERADA | FRACA

  /** The candle pattern names the source assigns. */
  datatype Pattern = Normal | MarubozuAlta | MarubozuBaixa | Doji | Martelo | EstrelaCadente | Piao

  /** `pattern.includes('Martelo') || pattern.includes('Estrela')`: of the names above only
      the hammer and the shooting star contain those words. */
  predicate IsReversal(p: Pattern) {
    p == Martelo || p == EstrelaCadente
  }

  datatype Trend = Up | Down | Lateral

  datatype CandleBody = CandleBody(
    bodySize: real,
    upperWickSize: real,
    lowerWickSize: real,
    totalSize: real,
    isBullish: bool,
    strength: Strength,
    pattern: Pattern)

  /** `part / total * 100`, or 0 for a candle without range. */
  function Percent(part: real, totalSize: real): real {
    if totalSize > 0.0 then (part / totalSize) * 100.0 else 0.0
  }

  /** analyzeCandleBody: body and wick shares of the range, strength bucket and pattern. */
  function AnalyzeCandleBody(open: real, high: real, low: real, close: real): (c: CandleBody)
    ensures c.isBullish <==> close > open
    ensures c.totalSize == high - low
    ensures c.strength == FORTE <==> c.bodySize > 70.0
    ensures c.strength == MODERADA <==> 40.0 < c.bodySize <= 70.0
    ensures c.strength == FRACA <==> c.bodySize <= 40.0
    ensures high - low <= 0.0 ==>
      c.bodySize == 0.0 && c.upperWickSize == 0.0 && c.lowerWickSize == 0.0 && c.strength == FRACA && c.pattern == Doji
    ensures c.pattern == MarubozuAlta <==> c.bodySize > 80.0 && c.isBullish
    ensures c.pattern == MarubozuBaixa <==> c.bodySize > 80.0 && !c.isBullish
    ensures c.pattern == Doji <==> c.bodySize < 20.0
    ensures c.pattern == Martelo <==> 20.0 <= c.bodySize <= 80.0 && c.lowerWickSize > 60.0 && c.isBullish
    ensures c.pattern == EstrelaCadente <==> 20.0 <= c.bodySize <= 80.0 && c.upperWickSize > 60.0 && !c.isBullish
    ensures c.pattern == Piao <==>
      (20.0 <= c.bodySize <= 80.0
       && !(c.lowerWickSize > 60.0 && c.isBullish) && !(c.upperWickSize > 60.0 && !c.isBullish)
       && c.upperWickSize > 40.0 && c.lowerWickSize > 40.0)
    ensures c.pattern == Normal <==>
      (20.0 <= c.bodySize <= 80.0
       && !(c.lowerWickSize > 60.0 && c.isBullish) && !(c.upperWickSize > 60.0 && !c.isBullish)
       && !(c.upperWickSize > 40.0 && c.lowerWickSize > 40.0))
  {
    var isBullish := close > open;
    var bodySize := if close - open >= 0.0 then close - open else open - close;
    var totalSize := high - low;
    var upperWick := if isBullish then high - close else high - open;
    var lowerWick := if isBullish then open - low else close - low;
    var bodyPercent := Percent(bodySize, totalSize);
    var upperWickPercent := Percent(upperWick, totalSize);
    var lowerWickPercent := Percent(lowerWick, totalSize);
    var strength :=
      if bodyPercent > 70.0 then FORTE
      else if bodyPercent > 40.0 then MODERADA
      else FRACA;
    var pattern :=
      if bodyPercent > 80.0 then (if isBullish then MarubozuAlta else MarubozuBaixa)
      else if bodyPercent < 20.0 then Doji
      else if lowerWickPercent > 60.0 && isBullish then Martelo
      else if upperWickPercent > 60.0 && !isBullish then EstrelaCadente
      else if upperWickPercent > 40.0 && lowerWickPercent > 40.0 then Piao
      else Normal;
    CandleBody(bodyPercent, upperWickPercent, lowerWickPercent, totalSize, isBullish, strength, pattern)
  }

  /** For a well-formed candle (open and close inside a positive range) the body and the two
      wicks split the range: each share lies in 0..100 and together they make 100. */
  lemma SharesOfWellFormedCandle(open: real, high: real, low: real, close: real)
    requires low < high && low <= open <= high && low <= close <= high
    ensures var c := AnalyzeCandleBody(open, high, low, close);
      && 0.0 <= c.bodySize <= 100.0 && 0.0 <= c.upperWickSize <= 100.0 && 0.0 <= c.lowerWickSize <= 100.0
      && c.bodySize + c.upperWickSize + c.lowerWickSize == 100.0
  {
    var t := high - low;
    var b := if close - open >= 0.0 then close - open else open - close;
    var u := if close > open then high - close else high - open;
    var l := if close > open then open - low else close - low;
    assert b + u + l == t;
    PercentSplit(b, u, l, t);
  }

  lemma PercentSplit(b: real, u: real, l: real, t: real)
    requires t > 0.0 && b >= 0.0 && u >= 0.0 && l >= 0.0 && b + u + l == t
    ensures 0.0 <= Percent(b, t) <= 100.0 && 0.0 <= Percent(u, t) <= 100.0 && 0.0 <= Percent(l, t) <= 100.0
    ensures Percent(b, t) + Percent(u, t) + Percent(l, t) == 100.0
  {
    var q1, q2, q3 := b / t, u / t, l / t;
    TimesDivisor(q1, b, t);
    TimesDivisor(q2, u, t);
    TimesDivisor(q3, l, t);
    var s := q1 + q2 + q3;
    assert s * t == q1 * t + q2 * t + q3 * t;
    assert s * t == b + u + l;
    UnitFactor(s, t);
    assert q1 * 100.0 + q2 * 100.0 + q3 * 100.0 == s * 100.0;
    ShareAtMostWhole(b, t);
    ShareAtMostWhole(u, t);
    ShareAtMostWhole(l, t);
  }

  lemma TimesDivisor(q: real, x: real, t: real)
    requires t > 0.0 && q == x / t
    ensures q * t == x
  {
  }

  lemma UnitFactor(s: real, t: real)
    requires t > 0.0 && s * t == t
    ensures s == 1.0
  {
    assert s == (s * t) / t;
  }

  lemma ShareAtMostWhole(x: real, t: real)
    requires t > 0.0 && 0.0 <= x <= t
    ensures 0.0 <= x / t <= 1.0
  {
    var q := x / t;
    assert q * t == x;
    assert q > 1.0 ==> (q - 1.0) * t > 0.0;
  }

  datatype EntryTiming = VELA_ATUAL | PROXIMA_VELA | AGUARDAR
  datatype Urgency = ALTA | MEDIA | BAIXA

  /** The result of analyzeEntryTiming without its explanatory text. */
  datatype Timing = Timing(entryTiming: EntryTiming, secondsRemaining: int, confidence: int, urgency: Urgency)

  /** analyzeEntryTiming. The trend argument is accepted and not consulted, as in the source. */
  function AnalyzeEntryTiming(c: CandleBody, secondsRemaining: int, confluence: int, trend: Trend): (t: Timing)
    ensures t.secondsRemaining == secondsRemaining
    ensures t.entryTiming == VELA_ATUAL <==> (c.strength == FORTE &&
      ((secondsRemaining >= 55 && confluence >= 85) || (30 <= secondsRemaining < 55 && confluence >= 90)))
    ensures t.entryTiming == VELA_ATUAL ==> secondsRemaining >= 30
    ensures 1 <= secondsRemaining <= 29 ==>
      t.entryTiming == PROXIMA_VELA && t.urgency == ALTA && t.confidence == (if confluence >= 80 then 85 else 70)
    ensures t.urgency == BAIXA <==> t.entryTiming == AGUARDAR
    ensures t.urgency == MEDIA <==> t.entryTiming == PROXIMA_VELA && secondsRemaining >= 30
    ensures t.entryTiming == AGUARDAR ==> t.confidence <= 60
    ensures 50 <= t.confidence <= 90
  {
    if secondsRemaining >= 55 then
      if c.strength == FORTE && confluence >= 85 then Timing(VELA_ATUAL, secondsRemaining, 90, ALTA)
      else if confluence >= 80 then Timing(PROXIMA_VELA, secondsRemaining, 75, MEDIA)
      else Timing(AGUARDAR, secondsRemaining, 50, BAIXA)
    else if secondsRemaining >= 30 then
      if c.strength == FORTE && confluence >= 90 then Timing(VELA_ATUAL, secondsRemaining, 85, ALTA)
      else if confluence >= 85 then Timing(PROXIMA_VELA, secondsRemaining, 80, MEDIA)
      else Timing(AGUARDAR, secondsRemaining, 60, BAIXA)
    else if secondsRemaining >= 1 then
      Timing(PROXIMA_VELA, secondsRemaining, if confluence >= 80 then 85 else 70, ALTA)
    else
      if confluence >= 85 && c.strength == FORTE then Timing(PROXIMA_VELA, secondsRemaining, 90, ALTA)
      else Timing(AGUARDAR, secondsRemaining, 50, BAIXA)
  }

  /** One entry of the filter list, carrying the value its text displays. */
  datatype Filter =
    | StrongBody(bodySize: real)
    | WeakBody(bodySize: real)
    | LowerWickRejection(lowerWickSize: real)
    | UpperWickRejection(upperWickSize: real)
    | ReversalPattern(pattern: Pattern)
    | HighVolume(ratio: real)
    | LowVolume(ratio: real)
    | AlignedWithUptrend
    | AlignedWithDowntrend
    | SidewaysMarket
    | CandleStrength(strength: Strength)

  /** Volume as a percentage of the average volume; 100 when there is no average. */
  function VolumeRatio(volume: real, averageVolume: real): real {
    if averageVolume > 0.0 then (volume / averageVolume) * 100.0 else 100.0
  }

  /** The five conditional filters; each contributes at most one entry. */
  function BodyFilter(c: CandleBody): seq<Filter> {
    if c.bodySize > 70.0 then [StrongBody(c.bodySize)]
    else if c.bodySize < 30.0 then [WeakBody(c.bodySize)]
    else []
  }

  function WickFilter(c: CandleBody): seq<Filter> {
    if c.isBullish && c.lowerWickSize > 50.0 then [LowerWickRejection(c.lowerWickSize)]
    else if !c.isBullish && c.upperWickSize > 50.0 then [UpperWickRejection(c.upperWickSize)]
    else []
  }

  function PatternFilter(c: CandleBody): seq<Filter> {
    if IsReversal(c.pattern) then [ReversalPattern(c.pattern)] else []
  }

  function VolumeFilter(volumeRatio: real): seq<Filter> {
    if volumeRatio > 150.0 then [HighVolume(volumeRatio)]
    else if volumeRatio < 70.0 then [LowVolume(volumeRatio)]
    else []
  }

  function TrendFilter(c: CandleBody, trend: Trend): seq<Filter> {
    if trend == Up && c.isBullish then [AlignedWithUptrend]
    else if trend == Down && !c.isBullish then [AlignedWithDowntrend]
    else if trend == Lateral then [SidewaysMarket]
    else []
  }

  /** The filter list the source builds, stage by stage. */
  function FilterList(c: CandleBody, volume: real, averageVolume: real, trend: Trend): (filters: seq<Filter>)
    ensures 1 <= |filters| <= 6
    ensures filters[|filters| - 1] == CandleStrength(c.strength)
  {
    BodyFilter(c) + WickFilter(c) + PatternFilter(c) + VolumeFilter(VolumeRatio(volume, averageVolume))
      + TrendFilter(c, trend) + [CandleStrength(c.strength)]
  }

  /** An entry is in the filter list iff it is in one of the stages or is the strength entry. */
  lemma FilterListMembers(c: CandleBody, volume: real, averageVolume: real, trend: Trend)
    ensures var filters := FilterList(c, volume, averageVolume, trend);
      && 1 <= |filters| <= 6
      && filters[|filters| - 1] == CandleStrength(c.strength)
      && forall f :: f in filters <==>
        f in BodyFilter(c) || f in WickFilter(c) || f in PatternFilter(c) || f in VolumeFilter(VolumeRatio(volume, averageVolume))
        || f in TrendFilter(c, trend) || f == CandleStrength(c.strength)
  {
  }

  /** The body filters are present exactly when their conditions hold. */
  lemma FilterListBodyEntries(c: CandleBody, volume: real, averageVolume: real, trend: Trend)
    ensures var filters := FilterList(c, volume, averageVolume, trend);
      (StrongBody(c.bodySize) in filters <==> c.bodySize > 70.0)
      && (WeakBody(c.bodySize) in filters <==> c.bodySize < 30.0)
  {
    FilterListMembers(c, volume, averageVolume, trend);
  }

  /** The wick-rejection and reversal filters are present exactly when their conditions hold. */
  lemma FilterListWickEntries(c: CandleBody, volume: real, averageVolume: real, trend: Trend)
    ensures var filters := FilterList(c, volume, averageVolume, trend);
      (LowerWickRejection(c.lowerWickSize) in filters <==> c.isBullish && c.lowerWickSize > 50.0)
      && (UpperWickRejection(c.upperWickSize) in filters <==> !c.isBullish && c.upperWickSize > 50.0)
      && (ReversalPattern(c.pattern) in filters <==> IsReversal(c.pattern))
  {
    FilterListMembers(c, volume, averageVolume, trend);
  }

  /** The volume filters are present exactly when their conditions hold. */
  lemma FilterListVolumeEntries(c: CandleBody, volume: real, averageVolume: real, trend: Trend)
    ensures var filters := FilterList(c, volume, averageVolume, trend);
      (HighVolume(VolumeRatio(volume, averageVolume)) in filters <==> VolumeRatio(volume, averageVolume) > 150.0)
      && (LowVolume(VolumeRatio(volume, averageVolume)) in filters <==> VolumeRatio(volume, averageVolume) < 70.0)
  {
    FilterListMembers(c, volume, averageVolume, trend);
  }

  /** The trend filters are present exactly when their conditions hold. */
  lemma FilterListTrendEntries(c: CandleBody, volume: real, averageVolume: real, trend: Trend)
    ensures var filters := FilterList(c, volume, averageVolume, trend);
      (AlignedWithUptrend in filters <==> trend == Up && c.isBullish)
      && (AlignedWithDowntrend in filters <==> trend == Down && !c.isBullish)
      && (SidewaysMarket in filters <==> trend == Lateral)
  {
    FilterListMembers(c, volume, averageVolume, trend);
  }

  /** getBinaryOptionsFilters1M, pushing one stage at a time. */
  method GetBinaryOptionsFilters1M(c: CandleBody, volume: real, averageVolume: real, trend: Trend)
    returns (filters: seq<Filter>)
    ensures filters == FilterList(c, volume, averageVolume, trend)
  {
    filters := [];
    if c.bodySize > 70.0 {
      filters := filters + [StrongBody(c.bodySize)];
    } else if c.bodySize < 30.0 {
      filters := filters + [WeakBody(c.bodySize)];
    }
    assert filters == BodyFilter(c);
    if c.isBullish && c.lowerWickSize > 50.0 {
      filters := filters + [LowerWickRejection(c.lowerWickSize)];
    } else if !c.isBullish && c.upperWickSize > 50.0 {
      filters := filters + [UpperWickRejection(c.upperWickSize)];
    }
    assert filters == BodyFilter(c) + WickFilter(c);
    if IsReversal(c.pattern) {
      filters := filters + [ReversalPattern(c.pattern)];
    }
    assert filters == BodyFilter(c) + WickFilter(c) + PatternFilter(c);
    var volumeRatio := VolumeRatio(volume, averageVolume);
    if volumeRatio > 150.0 {
      filters := filters + [HighVolume(volumeRatio)];
    } else if volumeRatio < 70.0 {
      filters := filters + [LowVolume(volumeRatio)];
    }
    assert filters == BodyFilter(c) + WickFilter(c) + PatternFilter(c) + VolumeFilter(volumeRatio);
    if trend == Up && c.isBullish {
      filters := filters + [AlignedWithUptrend];
    } else if trend == Down && !c.isBullish {
      filters := filters + [AlignedWithDowntrend];
    } else if trend == Lateral {
      filters := filters + [SidewaysMarket];
    }
    assert filters == BodyFilter(c) + WickFilter(c) + PatternFilter(c) + VolumeFilter(volumeRatio) + TrendFilter(c, trend);
    filters := filters + [CandleStrength(c.strength)];
  }

  /** One entry of the trigger list. */
  datatype Trigger =
    | PatternNote(pattern: Pattern)
    | EnterNow(secondsRemaining: int)
    | WaitForNextCandle(secondsRemaining: int)
    | WaitForBetterSetup
    | MaximumConfluence(confluence: int)
    | HighConfluence(confluence: int)
    | ModerateConfluence(confluence: int)
    | BodyDominatesWicks
    | WicksDominateBody
    | ClearDirection(isBullish: bool)
    | UrgencyNote(urgency: Urgency)

  function TimingTrigger(timing: Timing): Trigger {
    match timing.entryTiming
    case VELA_ATUAL => EnterNow(timing.secondsRemaining)
    case PROXIMA_VELA => WaitForNextCandle(timing.secondsRemaining)
    case AGUARDAR => WaitForBetterSetup
  }

  function ConfluenceTrigger(confluence: int): seq<Trigger> {
    if confluence >= 90 then [MaximumConfluence(confluence)]
    else if confluence >= 80 then [HighConfluence(confluence)]
    else if confluence >= 70 then [ModerateConfluence(confluence)]
    else []
  }

  function DominanceTrigger(c: CandleBody): Trigger {
    if c.bodySize > c.upperWickSize + c.lowerWickSize then BodyDominatesWicks else WicksDominateBody
  }

  function DirectionTrigger(c: CandleBody): seq<Trigger> {
    if c.bodySize > 60.0 then [ClearDirection(c.isBullish)] else []
  }

  /** The trigger list the source builds, stage by stage. */
  function TriggerList(c: CandleBody, timing: Timing, confluence: int): (triggers: seq<Trigger>)
    ensures 4 <= |triggers| <= 6
    ensures triggers[0] == PatternNote(c.pattern) && triggers[|triggers| - 1] == UrgencyNote(timing.urgency)
  {
    [PatternNote(c.pattern), TimingTrigger(timing)] + ConfluenceTrigger(confluence)
      + [DominanceTrigger(c)] + DirectionTrigger(c) + [UrgencyNote(timing.urgency)]
  }

  /** An entry is in the trigger list iff it is one of the fixed entries or in one of the
      optional stages. */
  lemma TriggerListMembers(c: CandleBody, timing: Timing, confluence: int)
    ensures forall g :: g in TriggerList(c, timing, confluence) <==>
      g == PatternNote(c.pattern) || g == TimingTrigger(timing) || g in ConfluenceTrigger(confluence)
      || g == DominanceTrigger(c) || g in DirectionTrigger(c) || g == UrgencyNote(timing.urgency)
  {
  }

  /** The shape of the trigger list: the pattern first, the timing advice second, the
      urgency last, and four to six entries. */
  lemma TriggerListShape(c: CandleBody, timing: Timing, confluence: int)
    ensures var triggers := TriggerList(c, timing, confluence);
      && 4 <= |triggers| <= 6
      && |triggers| == 4 + (if confluence >= 70 then 1 else 0) + (if c.bodySize > 60.0 then 1 else 0)
      && triggers[0] == PatternNote(c.pattern)
      && triggers[1] == TimingTrigger(timing)
      && triggers[|triggers| - 1] == UrgencyNote(timing.urgency)
  {
  }

  /** The confluence triggers are present exactly in their score bands. */
  lemma TriggerListConfluenceEntries(c: CandleBody, timing: Timing, confluence: int)
    ensures var triggers := TriggerList(c, timing, confluence);
      && (MaximumConfluence(confluence) in triggers <==> confluence >= 90)
      && (HighConfluence(confluence) in triggers <==> 80 <= confluence < 90)
      && (ModerateConfluence(confluence) in triggers <==> 70 <= confluence < 80)
  {
    TriggerListMembers(c, timing, confluence);
  }

  /** The body triggers: exactly one of the two dominance notes, and the direction note
      exactly for a body over 60%. */
  lemma TriggerListBodyEntries(c: CandleBody, timing: Timing, confluence: int)
    ensures var triggers := TriggerList(c, timing, confluence);
      && (BodyDominatesWicks in triggers <==> c.bodySize > c.upperWickSize + c.lowerWickSize)
      && (WicksDominateBody in triggers <==> !(c.bodySize > c.upperWickSize + c.lowerWickSize))
      && (ClearDirection(c.isBullish) in triggers <==> c.bodySize > 60.0)
  {
    TriggerListMembers(c, timing, confluence);
  }

  /** getBinaryOptionsTriggers1M, pushing one stage at a time. */
  method GetBinaryOptionsTriggers1M(c: CandleBody, timing: Timing, confluence: int)
    returns (triggers: seq<Trigger>)
    ensures triggers == TriggerList(c, timing, confluence)
  {
    triggers := [PatternNote(c.pattern)];
    if timing.entryTiming == VELA_ATUAL {
      triggers := triggers + [EnterNow(timing.secondsRemaining)];
    } else if timing.entryTiming == PROXIMA_VELA {
      triggers := triggers + [WaitForNextCandle(timing.secondsRemaining)];
    } else {
      triggers := triggers + [WaitForBetterSetup];
    }
    assert triggers == [PatternNote(c.pattern), TimingTrigger(timing)];
    if confluence >= 90 {
      triggers := triggers + [MaximumConfluence(confluence)];
    } else if confluence >= 80 {
      triggers := triggers + [HighConfluence(confluence)];
    } else if confluence >= 70 {
      triggers := triggers + [ModerateConfluence(confluence)];
    }
    assert triggers == [PatternNote(c.pattern), TimingTrigger(timing)] + ConfluenceTrigger(confluence);
    if c.bodySize > c.upperWickSize + c.lowerWickSize {
      triggers := triggers + [BodyDominatesWicks];
    } else {
      triggers := triggers + [WicksDominateBody];
    }
    if c.bodySize > 60.0 {
      triggers := triggers + [ClearDirection(c.isBullish)];
    }
    assert triggers == [PatternNote(c.pattern), TimingTrigger(timing)] + ConfluenceTrigger(confluence)
      + [DominanceTrigger(c)] + DirectionTrigger(c);
    triggers := triggers + [UrgencyNote(timing.urgency)];
  }

  /** `Math.min(98, Math.max(50, p))`. */
  function Clamp(p: int): (r: int)
    ensures 50 <= r <= 98
    ensures 50 <= p <= 98 ==> r == p
    ensures p < 50 ==> r == 50
    ensures p > 98 ==> r == 98
  {
    if p < 50 then 50 else if p > 98 then 98 else p
  }

  /** The win probability as the adjustments that can actually apply: a bonus for entering a
      fresh candle now, for a strong body and for a reversal pattern, a malus for a weak body.
      The source also has a malus for entering the current candle with under 30 s left, which
      the timing table never allows. */
  function WinProbability(c: CandleBody, timing: Timing, confluence: int): (p: int)
    ensures 50 <= p <= 98
    ensures Clamp(confluence - 5) <= p <= Clamp(confluence + 15)
    ensures c.strength == FRACA && !IsReversal(c.pattern) && timing.entryTiming != VELA_ATUAL ==>
      p == Clamp(confluence - 5)
    ensures (c.strength == FORTE && IsReversal(c.pattern) && timing.entryTiming == VELA_ATUAL
             && timing.secondsRemaining >= 55) ==> p == Clamp(confluence + 15)
  {
    var timingBonus := if timing.entryTiming == VELA_ATUAL && timing.secondsRemaining >= 55 then 5 else 0;
    var strengthBonus := if c.strength == FORTE then 5 else if c.strength == FRACA then -5 else 0;
    var patternBonus := if IsReversal(c.pattern) then 5 else 0;
    Clamp(confluence + timingBonus + strengthBonus + patternBonus)
  }

  /** A higher confluence never lowers the win probability. */
  lemma WinProbabilityMonotone(c: CandleBody, timing: Timing, lower: int, higher: int)
    requires lower <= higher
    ensures WinProbability(c, timing, lower) <= WinProbability(c, timing, higher)
  {
  }

  datatype BinaryOptionsSignal = BinaryOptionsSignal(
    candle: CandleBody,
    timing: Timing,
    filters: seq<Filter>,
    triggers: seq<Trigger>,
    winProbability: int)

  /** analyzeBinaryOptions1M: the four analyses above, then the win probability adjusted step
      by step and clamped to 50..98. */
  method AnalyzeBinaryOptions1M(open: real, high: real, low: real, close: real, volume: real,
                                averageVolume: real, secondsRemaining: int, confluence: int, trend: Trend)
    returns (signal: BinaryOptionsSignal)
    ensures signal.candle == AnalyzeCandleBody(open, high, low, close)
    ensures signal.timing == AnalyzeEntryTiming(signal.candle, secondsRemaining, confluence, trend)
    ensures signal.winProbability == WinProbability(signal.candle, signal.timing, confluence)
    ensures 50 <= signal.winProbability <= 98
    ensures signal.filters == FilterList(signal.candle, volume, averageVolume, trend)
    ensures signal.triggers == TriggerList(signal.candle, signal.timing, confluence)
  {
    var candleBody := AnalyzeCandleBody(open, high, low, close);
    var timing := AnalyzeEntryTiming(candleBody, secondsRemaining, confluence, trend);
    var filters := GetBinaryOptionsFilters1M(candleBody, volume, averageVolume, trend);
    var triggers := GetBinaryOptionsTriggers1M(candleBody, timing, confluence);
    var winProbability := confluence;
    if timing.entryTiming == VELA_ATUAL && secondsRemaining >= 55 {
      winProbability := winProbability + 5;
    } else if timing.entryTiming == VELA_ATUAL && secondsRemaining < 30 {
      winProbability := winProbability - 10;
    }
    if candleBody.strength == FORTE {
      winProbability := winProbability + 5;
    } else if candleBody.strength == FRACA {
      winProbability := winProbability - 5;
    }
    if IsReversal(candleBody.pattern) {
      winProbability := winProbability + 5;
    }
    winProbability := if 50 > winProbability then 50 else winProbability;
    winProbability := if 98 < winProbability then 98 else winProbability;
    signal := BinaryOptionsSignal(candleBody, timing, filters, triggers, winProbability);
  }

  datatype TimerStatus = INICIO | MEIO | FINAL | FECHADA

  datatype CandleTimer = CandleTimer(secondsRemaining: int, progress: real, status: TimerStatus)

  /** detectCandleTimer with the clock read passed in as `now` (milliseconds). */
  function DetectCandleTimer(candleOpenTime: int, tf: Timeframe, now: int): (r: CandleTimer)
    ensures r.secondsRemaining >= 0
    ensures r.status == FECHADA <==> r.secondsRemaining == 0
    ensures r.secondsRemaining == 0 <==> candleOpenTime + tf.Millis() - now < 1000
    ensures r.secondsRemaining > 0 ==>
      r.secondsRemaining * 1000 <= candleOpenTime + tf.Millis() - now < (r.secondsRemaining + 1) * 1000
    ensures r.progress * (tf.Millis() as real) == ((now - candleOpenTime) * 100) as real
    ensures r.status == INICIO <==> r.secondsRemaining > 0 && r.progress < 20.0
    ensures r.status == FINAL <==> r.secondsRemaining > 0 && 80.0 < r.progress
  {
    var timeframeMs := tf.Millis();
    var elapsed := now - candleOpenTime;
    var remaining := candleOpenTime + timeframeMs - now;
    var secondsRemaining := if remaining / 1000 > 0 then remaining / 1000 else 0;
    var progress := (elapsed as real) / (timeframeMs as real) * 100.0;
    var status :=
      if secondsRemaining <= 0 then FECHADA
      else if progress < 20.0 then INICIO
      else if progress > 80.0 then FINAL
      else MEIO;
    CandleTimer(secondsRemaining, progress, status)
  }

  /** Timed against the candle the clock computes for the same instant, the timer reports
      the same whole seconds left, a progress in [0, 100), and FECHADA only for a candle the
      clock already counts as closed. */
  lemma TimerAgreesWithClock(now: int, tf: Timeframe)
    ensures var c := CandleSync.CalculateCandleInfo(now, tf);
      var r := DetectCandleTimer(c.openTime, tf, now);
      && r.secondsRemaining == c.secondsRemaining
      && 0.0 <= r.progress < 100.0
      && (r.status == FECHADA ==> c.isClosed)
  {
    var c := CandleSync.CalculateCandleInfo(now, tf);
    TimerInsideCandle(c.openTime, tf, now);
  }

  /** Inside its window the timer counts the whole seconds to the close, and the progress
      lies in [0, 100). */
  lemma TimerInsideCandle(candleOpenTime: int, tf: Timeframe, now: int)
    requires candleOpenTime <= now < candleOpenTime + tf.Millis()
    ensures var r := DetectCandleTimer(candleOpenTime, tf, now);
      && r.secondsRemaining == (candleOpenTime + tf.Millis() - now) / 1000
      && 0.0 <= r.progress < 100.0
  {
    var r := DetectCandleTimer(candleOpenTime, tf, now);
    ProgressBelow(r.progress, tf.Millis(), now - candleOpenTime);
  }

  lemma ProgressBelow(p: real, w: nat, elapsed: int)
    requires 0 <= elapsed < w && p * (w as real) == (elapsed * 100) as real
    ensures 0.0 <= p < 100.0
  {
    var wr := w as real;
    assert (elapsed * 100) as real == (elapsed as real) * 100.0;
    assert (elapsed as real) < wr;
  }

  datatype Forecast = CALL | PUT | INCERTO

  datatype Prediction = Prediction(direction: Forecast, confidence: int)

  /** `previousCandles.filter(c => c.isBullish).length`. */
  function BullishCount(candles: seq<CandleBody>): (n: nat)
    ensures n <= |candles|
    ensures n == 0 <==> forall i :: 0 <= i < |candles| ==> !candles[i].isBullish
    ensures n == |candles| <==> forall i :: 0 <= i < |candles| ==> candles[i].isBullish
  {
    if |candles| == 0 then 0
    else
      var rest := BullishCount(candles[1..]);
      assert forall i :: 1 <= i < |candles| ==> candles[i] == candles[1..][i - 1];
      (if candles[0].isBullish then 1 else 0) + rest
  }

  /** predictNextCandle: a strong candle continues, a hammer or shooting star reverses, else
      a trend backed by a majority of the previous candles, else no call. */
  function PredictNextCandle(current: CandleBody, previousCandles: seq<CandleBody>, trend: Trend): (p: Prediction)
    ensures p.direction == INCERTO <==> p.confidence == 50
    ensures current.strength == FORTE ==>
      p.direction == (if current.isBullish then CALL else PUT) && p.confidence == 75
    ensures p.confidence == 75 <==> current.strength == FORTE
    ensures p.confidence == 80 <==> current.strength != FORTE && IsReversal(current.pattern)
    ensures current.strength != FORTE && current.pattern == Martelo ==> p == Prediction(CALL, 80)
    ensures current.strength != FORTE && current.pattern == EstrelaCadente ==> p == Prediction(PUT, 80)
    ensures (current.strength != FORTE && !IsReversal(current.pattern) && trend == Up
             && 2 * BullishCount(previousCandles) > |previousCandles|) ==> p == Prediction(CALL, 70)
    ensures (current.strength != FORTE && !IsReversal(current.pattern) && trend == Down
             && 2 * BullishCount(previousCandles) < |previousCandles|) ==> p == Prediction(PUT, 70)
    ensures p.confidence == 70 ==>
      (p.direction == CALL && trend == Up && 2 * BullishCount(previousCandles) > |previousCandles|) ||
      (p.direction == PUT && trend == Down && 2 * BullishCount(previousCandles) < |previousCandles|)
    ensures p.confidence in {50, 70, 75, 80}
  {
    var bullishCount := BullishCount(previousCandles);
    var bearishCount := |previousCandles| - bullishCount;
    if current.strength == FORTE then Prediction(if current.isBullish then CALL else PUT, 75)
    else if current.pattern == Martelo then Prediction(CALL, 80)
    else if current.pattern == EstrelaCadente then Prediction(PUT, 80)
    else if trend == Up && bullishCount > bearishCount then Prediction(CALL, 70)
    else if trend == Down && bearishCount > bullishCount then Prediction(PUT, 70)
    else Prediction(INCERTO, 50)
  }
}
