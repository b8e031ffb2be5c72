/** The deterministic helpers of the Pocket Option service (src/lib/pocketOptionService.ts):
    the payout filter applied to the fetched pair list, the fallback catalogue, the display
    form of a symbol and the timeframe code sent to the API. */
module PocketOption {
  import opened Signals
  import Text
  import Lists

  /** An OTC market entry; `category` and `payout` are optional. */
  datatype OtcMarket = OtcMarket(
    symbol: string,
    name: string,
    kind: string,
    active: bool,
    category: Option<string>,
    payout: Option<int>)

  /** The lowest payout, in percent, that the filter keeps. */
  const MinPayout := 85

  /** `pair.payout || 0`: a missing payout counts as 0. */
  function PayoutOf(pair: OtcMarket): int {
    match pair.payout
    case None => 0
    case Some(p) => p
  }

  predicate HighPayout(pair: OtcMarket) {
    PayoutOf(pair) >= MinPayout
  }

  /** `data.filter(pair => (pair.payout || 0) >= 85)`. */
  function HighPayoutPairs(data: seq<OtcMarket>): (r: seq<OtcMarket>)
    ensures |r| <= |data|
    ensures forall k :: 0 <= k < |r| ==> HighPayout(r[k])
  {
    if |data| == 0 then []
    else if HighPayout(data[0]) then [data[0]] + HighPayoutPairs(data[1..])
    else HighPayoutPairs(data[1..])
  }

  /** The list getOtcPairs returns for a fetched list: the high-payout pairs if there are
      any, otherwise the fetched list as it is. */
  function SelectOtcPairs(data: seq<OtcMarket>): (r: seq<OtcMarket>)
    ensures |r| <= |data| && (|r| == 0 <==> |data| == 0)
    ensures r == data || forall k :: 0 <= k < |r| ==> HighPayout(r[k])
  {
    var filteredPairs := HighPayoutPairs(data);
    if |filteredPairs| > 0 then filteredPairs else data
  }

  /** The filter keeps exactly the high-payout pairs, each as often as it occurs, in their
      original order. */
  lemma {:induction false} HighPayoutPairsSpec(data: seq<OtcMarket>)
    ensures forall p :: p in HighPayoutPairs(data) <==> p in data && HighPayout(p)
    ensures forall p :: HighPayout(p) ==> Lists.Count(HighPayoutPairs(data), p) == Lists.Count(data, p)
    ensures forall p :: !HighPayout(p) ==> Lists.Count(HighPayoutPairs(data), p) == 0
    ensures Lists.IsSubsequence(HighPayoutPairs(data), data)
  {
    if |data| > 0 {
      HighPayoutPairsSpec(data[1..]);
      var r := HighPayoutPairs(data[1..]);
      assert forall p :: p in data <==> p == data[0] || p in data[1..] by {
        assert data == [data[0]] + data[1..];
      }
      if HighPayout(data[0]) {
        assert ([data[0]] + r)[1..] == r;
      } else {
        Lists.SubsequenceOfTail(r, data);
      }
    }
  }

  /** If some pair reaches the minimum payout, exactly the qualifying pairs are returned;
      otherwise the fetched list comes back unchanged. */
  lemma SelectOtcPairsSpec(data: seq<OtcMarket>)
    ensures (exists p :: p in data && HighPayout(p)) ==> SelectOtcPairs(data) == HighPayoutPairs(data)
    ensures (exists p :: p in data && HighPayout(p)) ==> forall p :: p in SelectOtcPairs(data) ==> HighPayout(p)
    ensures (forall p :: p in data ==> !HighPayout(p)) ==> SelectOtcPairs(data) == data
  {
    HighPayoutPairsSpec(data);
    if exists p :: p in data && HighPayout(p) {
      var p :| p in data && HighPayout(p);
      assert p in HighPayoutPairs(data);
    }
  }

  /** The currencies of the fallback catalogue. */
  datatype Currency = AUD | CAD | CHF | EUR | GBP | JPY | NZD | USD {
    function Code(): (s: string)
      ensures |s| == 3 && IsUpperCase(s)
    {
      match this
      case AUD => "AUD" case CAD => "CAD" case CHF => "CHF" case EUR => "EUR"
      case GBP => "GBP" case JPY => "JPY" case NZD => "NZD" case USD => "USD"
    }

    /** Alphabetical position of the code. */
    function Rank(): nat {
      match this
      case AUD => 0 case CAD => 1 case CHF => 2 case EUR => 3
      case GBP => 4 case JPY => 5 case NZD => 6 case USD => 7
    }
  }

  lemma CodeInjective(a: Currency, b: Currency)
    ensures a.Code() == b.Code() ==> a == b
  {
    if a.Code() == b.Code() {
      assert a.Code()[0] == b.Code()[0] && a.Code()[1] == b.Code()[1];
    }
  }

  /** "AUDCAD_otc" for the pair (AUD, CAD). */
  function PairSymbol(base: Currency, quote: Currency): string {
    base.Code() + quote.Code() + "_otc"
  }

  /** "AUD/CAD OTC" for the pair (AUD, CAD). */
  function PairName(base: Currency, quote: Currency): string {
    base.Code() + "/" + quote.Code() + " OTC"
  }

  /** One entry of the fallback catalogue: an active forex OTC pair without payout data. */
  function ForexOtc(base: Currency, quote: Currency): OtcMarket {
    OtcMarket(PairSymbol(base, quote), PairName(base, quote), "otc", true, Some("forex"), None)
  }

  /** The 28 currency pairs of the fallback catalogue, in the source's (alphabetical) order. */
  const DefaultPairs: seq<(Currency, Currency)> := [
    (AUD, CAD), (AUD, CHF), (AUD, JPY), (AUD, NZD), (AUD, USD), (CAD, CHF), (CAD, JPY),
    (CHF, JPY), (EUR, AUD), (EUR, CAD), (EUR, CHF), (EUR, GBP), (EUR, JPY), (EUR, NZD),
    (EUR, USD), (GBP, AUD), (GBP, CAD), (GBP, CHF), (GBP, JPY), (GBP, NZD), (GBP, USD),
    (NZD, CAD), (NZD, CHF), (NZD, JPY), (NZD, USD), (USD, CAD), (USD, CHF), (USD, JPY)]

  /** getDefaultOtcPairs: the catalogue used when the API cannot be reached. */
  function DefaultOtcPairs(): (r: seq<OtcMarket>)
    ensures |r| == 28
    ensures forall k :: 0 <= k < |r| ==> r[k].kind == "otc" && r[k].active && r[k].payout == None
  {
    seq(|DefaultPairs|, k requires 0 <= k < |DefaultPairs| => ForexOtc(DefaultPairs[k].0, DefaultPairs[k].1))
  }

  /** Orders the pairs as the catalogue lists them. */
  function PairKey(pair: (Currency, Currency)): int {
    pair.0.Rank() * 8 + pair.1.Rank()
  }

  lemma DefaultPairsIncrease()
    ensures |DefaultPairs| == 28
    ensures forall k :: 0 <= k < |DefaultPairs| - 1 ==> PairKey(DefaultPairs[k]) < PairKey(DefaultPairs[k + 1])
  {
  }

  /** A sequence that increases from each entry to the next increases throughout. */
  lemma {:induction false} IncreasingThroughout(pairs: seq<(Currency, Currency)>, i: nat, j: nat)
    requires forall k :: 0 <= k < |pairs| - 1 ==> PairKey(pairs[k]) < PairKey(pairs[k + 1])
    requires i < j < |pairs|
    ensures PairKey(pairs[i]) < PairKey(pairs[j])
    decreases j - i
  {
    if i + 1 < j {
      IncreasingThroughout(pairs, i + 1, j);
    }
  }

  /** Symbols and names determine the pair. */
  lemma SymbolAndNameInjective(b1: Currency, q1: Currency, b2: Currency, q2: Currency)
    ensures PairSymbol(b1, q1) == PairSymbol(b2, q2) ==> b1 == b2 && q1 == q2
    ensures PairName(b1, q1) == PairName(b2, q2) ==> b1 == b2 && q1 == q2
  {
    var s1, s2 := PairSymbol(b1, q1), PairSymbol(b2, q2);
    if s1 == s2 {
      assert s1[..3] == b1.Code() && s2[..3] == b2.Code();
      assert s1[3..6] == q1.Code() && s2[3..6] == q2.Code();
      CodeInjective(b1, b2);
      CodeInjective(q1, q2);
    }
    var n1, n2 := PairName(b1, q1), PairName(b2, q2);
    if n1 == n2 {
      assert n1[..3] == b1.Code() && n2[..3] == b2.Code();
      assert n1[4..7] == q1.Code() && n2[4..7] == q2.Code();
      CodeInjective(b1, b2);
      CodeInjective(q1, q2);
    }
  }

  /** The fallback catalogue: 28 active OTC pairs with distinct symbols, all ending in
      "_otc", and distinct names. */
  lemma DefaultOtcPairsSpec()
    ensures |DefaultOtcPairs()| == 28
    ensures forall p :: p in DefaultOtcPairs() ==> p.active && p.kind == "otc" && p.payout == None
    ensures forall p :: p in DefaultOtcPairs() ==> Text.EndsWith(p.symbol, "_otc")
    ensures forall i, j :: 0 <= i < j < |DefaultOtcPairs()| ==>
      DefaultOtcPairs()[i].symbol != DefaultOtcPairs()[j].symbol && DefaultOtcPairs()[i].name != DefaultOtcPairs()[j].name
  {
    var pairs := DefaultOtcPairs();
    DefaultPairsIncrease();
    forall p | p in pairs ensures Text.EndsWith(p.symbol, "_otc") {
      var k :| 0 <= k < |pairs| && pairs[k] == p;
      var s := p.symbol;
      assert s == DefaultPairs[k].0.Code() + DefaultPairs[k].1.Code() + "_otc";
      assert s[|s| - 4..] == "_otc";
    }
    forall i, j | 0 <= i < j < |pairs| ensures pairs[i].symbol != pairs[j].symbol && pairs[i].name != pairs[j].name {
      IncreasingThroughout(DefaultPairs, i, j);
      SymbolAndNameInjective(DefaultPairs[i].0, DefaultPairs[i].1, DefaultPairs[j].0, DefaultPairs[j].1);
    }
  }

  /** The first and last catalogue entries, spelled out. */
  lemma DefaultOtcPairsEnds()
    ensures DefaultOtcPairs()[0].symbol == "AUDCAD_otc" && DefaultOtcPairs()[0].name == "AUD/CAD OTC"
    ensures DefaultOtcPairs()[27].symbol == "USDJPY_otc" && DefaultOtcPairs()[27].name == "USD/JPY OTC"
  {
    assert DefaultPairs[0] == (AUD, CAD) && DefaultPairs[27] == (USD, JPY);
  }

  predicate IsUpperCase(s: string) {
    forall i :: 0 <= i < |s| ==> 'A' <= s[i] <= 'Z'
  }

  /** formatOtcSymbol: drop the first "_otc", turn the first remaining "_" into "/", and
      append " OTC". */
  function FormatOtcSymbol(symbol: string): (r: string)
    ensures Text.EndsWith(r, " OTC")
  {
    var r := Text.ReplaceFirst(Text.ReplaceFirst(symbol, "_otc", ""), "_", "/") + " OTC";
    assert r[|r| - 4..] == " OTC";
    r
  }

  /** The first occurrence is the one at i when none starts earlier. */
  lemma FirstIndexIs(s: string, pat: string, i: nat)
    requires Text.OccursAt(s, pat, i)
    requires forall k :: 0 <= k < i ==> !Text.OccursAt(s, pat, k)
    ensures Text.FirstIndex(s, pat) == i
  {
  }

  lemma NoUnderscore(s: string)
    requires IsUpperCase(s)
    ensures Text.FirstIndex(s, "_") == -1
  {
    forall k | 0 <= k < |s| ensures !Text.OccursAt(s, "_", k) {
      assert s[k..k + 1][0] == s[k];
    }
  }

  /** Removing the first "_otc" from t + "_otc" gives t back when no "_otc" starts in t. */
  lemma StripOtc(t: string)
    requires forall k :: 0 <= k < |t| ==> !Text.OccursAt(t + "_otc", "_otc", k)
    ensures Text.ReplaceFirst(t + "_otc", "_otc", "") == t
  {
    var s := t + "_otc";
    assert s[|t|..|t| + 4] == "_otc";
    FirstIndexIs(s, "_otc", |t|);
    assert s[..|t|] == t && s[|t| + 4..] == [];
  }

  /** In "BASE_QUOTE_otc" with upper-case codes the first "_otc" is the suffix. */
  lemma NoOtcInSplit(base: string, quote: string)
    requires IsUpperCase(base) && IsUpperCase(quote)
    ensures var t := base + "_" + quote;
      forall k :: 0 <= k < |t| ==> !Text.OccursAt(t + "_otc", "_otc", k)
  {
    var t := base + "_" + quote;
    var s := t + "_otc";
    forall k | 0 <= k < |t| ensures !Text.OccursAt(s, "_otc", k) {
      assert s[k..k + 4][0] == s[k] && s[k..k + 4][1] == s[k + 1];
      if k < |base| {
        assert s[k] == base[k];
      } else if k > |base| {
        assert s[k] == quote[k - |base| - 1];
      } else if |quote| > 0 {
        assert s[k + 1] == quote[0];
      } else {
        assert s[k + 1] == '_';
      }
    }
  }

  /** In an upper-case code followed by "_otc" the first "_otc" is the suffix. */
  lemma NoOtcInCode(code: string)
    requires IsUpperCase(code)
    ensures forall k :: 0 <= k < |code| ==> !Text.OccursAt(code + "_otc", "_otc", k)
  {
    var s := code + "_otc";
    forall k | 0 <= k < |code| ensures !Text.OccursAt(s, "_otc", k) {
      assert s[k..k + 4][0] == s[k] == code[k];
    }
  }

  /** The first "_" of "BASE_QUOTE" is the separator when BASE is upper case. */
  lemma SlashSeparator(base: string, quote: string)
    requires IsUpperCase(base)
    ensures Text.ReplaceFirst(base + "_" + quote, "_", "/") == base + "/" + quote
  {
    var t := base + "_" + quote;
    assert t[|base|..|base| + 1] == "_";
    forall k | 0 <= k < |base| ensures !Text.OccursAt(t, "_", k) {
      assert t[k..k + 1][0] == t[k] == base[k];
    }
    FirstIndexIs(t, "_", |base|);
    assert t[..|base|] == base && t[|base| + 1..] == quote;
  }

  /** A symbol "BASE_QUOTE_otc" of upper-case codes displays as "BASE/QUOTE OTC". */
  lemma FormatSplitSymbol(base: string, quote: string)
    requires IsUpperCase(base) && IsUpperCase(quote)
    ensures FormatOtcSymbol(base + "_" + quote + "_otc") == base + "/" + quote + " OTC"
  {
    var t := base + "_" + quote;
    NoOtcInSplit(base, quote);
    StripOtc(t);
    SlashSeparator(base, quote);
  }

  lemma CodesUpperCase(base: Currency, quote: Currency)
    ensures IsUpperCase(base.Code() + quote.Code())
  {
    var code := base.Code() + quote.Code();
    forall k | 0 <= k < |code| ensures 'A' <= code[k] <= 'Z' {
      if k < 3 {
        assert code[k] == base.Code()[k];
      } else {
        assert code[k] == quote.Code()[k - 3];
      }
    }
  }

  /** A catalogue symbol has no "_" between the codes, so it displays without the slash the
      catalogue name has: "AUDCAD_otc" becomes "AUDCAD OTC", not "AUD/CAD OTC". */
  lemma FormatCatalogueSymbol(base: Currency, quote: Currency)
    ensures FormatOtcSymbol(PairSymbol(base, quote)) == base.Code() + quote.Code() + " OTC"
    ensures FormatOtcSymbol(PairSymbol(base, quote)) != PairName(base, quote)
  {
    var code := base.Code() + quote.Code();
    assert PairSymbol(base, quote) == code + "_otc";
    CodesUpperCase(base, quote);
    NoOtcInCode(code);
    StripOtc(code);
    NoUnderscore(code);
    var f := FormatOtcSymbol(PairSymbol(base, quote));
    assert f == code + " OTC";
    assert f[3] == quote.Code()[0];
    assert PairName(base, quote)[3] == '/';
  }

  /** The timeframe codes the API understands, in seconds. */
  const ApiTimeframes: map<string, string> := map[
    "1m" := "60", "2m" := "120", "3m" := "180", "5m" := "300",
    "15m" := "900", "30m" := "1800", "1h" := "3600"]

  /** convertTimeframe: a known code maps to its seconds, anything else to "60". */
  function ConvertTimeframe(timeframe: string): (r: string)
    ensures timeframe in ApiTimeframes ==> r == ApiTimeframes[timeframe]
    ensures timeframe !in ApiTimeframes ==> r == "60"
    ensures r in ApiTimeframes.Values
  {
    assert ApiTimeframes["1m"] == "60";
    if timeframe in ApiTimeframes then ApiTimeframes[timeframe] else "60"
  }

  /** Each chart timeframe converts to its own length in seconds, as decimal text. */
  lemma ConvertChartTimeframe(tf: Timeframe)
    ensures ConvertTimeframe(tf.Label()) == Text.NatToString(tf.Minutes() * 60)
  {
    match tf
    case M1 => TwoDigitText(6, 0);
    case M2 => ThreeDigitText(1, 2, 0);
    case M3 => ThreeDigitText(1, 8, 0);
    case M5 => ThreeDigitText(3, 0, 0);
  }

  /** The longer API codes convert to their lengths in seconds as well: 15, 30 and 60 minutes. */
  lemma ConvertQuarterHour()
    ensures ConvertTimeframe("15m") == Text.NatToString(15 * 60)
  {
    assert ConvertTimeframe("15m") == "900";
    ThreeDigitText(9, 0, 0);
  }

  lemma ConvertHalfHour()
    ensures ConvertTimeframe("30m") == Text.NatToString(30 * 60)
  {
    assert ConvertTimeframe("30m") == "1800";
    ThreeDigitText(1, 8, 0);
    AppendDigit(180, 0);
  }

  lemma ConvertHour()
    ensures ConvertTimeframe("1h") == Text.NatToString(60 * 60)
  {
    assert ConvertTimeframe("1h") == "3600";
    ThreeDigitText(3, 6, 0);
    AppendDigit(360, 0);
  }

  lemma TwoDigitText(a: nat, b: nat)
    requires 1 <= a < 10 && b < 10
    ensures Text.NatToString(10 * a + b) == [Text.DigitChar(a), Text.DigitChar(b)]
  {
    assert (10 * a + b) / 10 == a && (10 * a + b) % 10 == b;
  }

  lemma ThreeDigitText(a: nat, b: nat, c: nat)
    requires 1 <= a < 10 && b < 10 && c < 10
    ensures Text.NatToString(100 * a + 10 * b + c) == [Text.DigitChar(a), Text.DigitChar(b), Text.DigitChar(c)]
  {
    assert (100 * a + 10 * b + c) / 10 == 10 * a + b && (100 * a + 10 * b + c) % 10 == c;
    TwoDigitText(a, b);
  }

  lemma AppendDigit(n: nat, d: nat)
    requires n >= 1 && d < 10
    ensures Text.NatToString(10 * n + d) == Text.NatToString(n) + [Text.DigitChar(d)]
  {
    assert (10 * n + d) / 10 == n && (10 * n + d) % 10 == d;
  }
}
