/**
 * The two-day-rule strategy engine: a simple moving average over closing
 * prices, the three-bar two-day-rule classifier, the 1% fractional-risk
 * position sizer and the advisor that combines them.
 */
module Strategy {
  import opened Basics

  /** One daily OHLC bar of a price history. */
  datatype Bar = Bar(date: Date, open: real, high: real, low: real, close: real, volume: real)

  // ---------------------------------------------------------------------
  // Simple moving average
  // ---------------------------------------------------------------------

  /** The sum of the closes of `bars`, added from the left as `reduce` does. */
  function SumCloses(bars: seq<Bar>): real {
    if bars == [] then 0.0 else SumCloses(bars[..|bars| - 1]) + bars[|bars| - 1].close
  }

  /** The `period` bars that end at index `i`. */
  function Window(data: seq<Bar>, period: int, i: nat): (w: seq<Bar>)
    requires period >= 1 && period - 1 <= i < |data|
    ensures |w| == period
    ensures forall k :: 0 <= k < period ==> w[k] == data[i - period + 1 + k]
  {
    data[i - period + 1..i + 1]
  }

  /**
   * Entry `i` of the moving-average series: missing while fewer than `period`
   * bars are available, otherwise the mean close of the window ending at `i`.
   */
  function MAAt(data: seq<Bar>, period: int, i: nat): (m: Option<real>)
    requires period >= 1 && i < |data|
    ensures m.None? <==> i < period - 1
    ensures m.Some? ==> m.value * period as real == SumCloses(Window(data, period, i))
  {
    if i < period - 1 then None else Some(SumCloses(Window(data, period, i)) / period as real)
  }

  /**
   * `calculateMA`: the moving-average series, one entry per bar, positionally
   * aligned with `data`.
   */
  method CalculateMA(data: seq<Bar>, period: int) returns (ma: seq<Option<real>>)
    requires period >= 1
    ensures |ma| == |data|
    ensures forall i :: 0 <= i < |data| ==> ma[i] == MAAt(data, period, i)
  {
    ma := [];
    for i := 0 to |data|
      invariant |ma| == i
      invariant forall j :: 0 <= j < i ==> ma[j] == MAAt(data, period, j)
    {
      if i < period - 1 {
        ma := ma + [None];
        continue;
      }
      var sum := SumCloses(data[i - period + 1..i + 1]);
      ma := ma + [Some(sum / period as real)];
    }
  }

  /** The sum of `|bars|` closes that all lie in `[lo, hi]` lies in `[|bars|·lo, |bars|·hi]`. */
  lemma {:induction false} SumClosesBounds(bars: seq<Bar>, lo: real, hi: real)
    requires forall k :: 0 <= k < |bars| ==> lo <= bars[k].close <= hi
    ensures |bars| as real * lo <= SumCloses(bars) <= |bars| as real * hi
  {
    if bars != [] {
      SumClosesBounds(bars[..|bars| - 1], lo, hi);
    }
  }

  /** A moving average lies between the lowest and the highest close of its window. */
  lemma MAWithinWindowRange(data: seq<Bar>, period: int, i: nat, lo: real, hi: real)
    requires period >= 1 && period - 1 <= i < |data|
    requires forall k :: i - period + 1 <= k <= i ==> lo <= data[k].close <= hi
    ensures MAAt(data, period, i).Some?
    ensures lo <= MAAt(data, period, i).value <= hi
  {
    var w := Window(data, period, i);
    SumClosesBounds(w, lo, hi);
    var m, p := MAAt(data, period, i).value, period as real;
    assert m * p == SumCloses(w);
    assert lo * p <= m * p <= hi * p;
    CancelPositiveFactor(lo, m, p);
    CancelPositiveFactor(m, hi, p);
  }

  lemma CancelPositiveFactor(a: real, b: real, p: real)
    requires p > 0.0 && a * p <= b * p
    ensures a <= b
  {
  }

  /** When the period exceeds the history, every entry of the series is missing. */
  lemma MAAllMissingWhenPeriodTooLong(data: seq<Bar>, period: int)
    requires period >= 1 && period > |data|
    ensures forall i :: 0 <= i < |data| ==> MAAt(data, period, i).None?
  {
  }

  /** The worked example: closes 10, 20, 30, 40 with period 3 give [-, -, 20, 30]. */
  lemma MAExample(b0: Bar, b1: Bar, b2: Bar, b3: Bar)
    requires b0.close == 10.0 && b1.close == 20.0 && b2.close == 30.0 && b3.close == 40.0
    ensures var data := [b0, b1, b2, b3];
      MAAt(data, 3, 0) == None && MAAt(data, 3, 1) == None
      && MAAt(data, 3, 2) == Some(20.0) && MAAt(data, 3, 3) == Some(30.0)
  {
    var data := [b0, b1, b2, b3];
    assert [b0][..0] == [] && [b1][..0] == [];
    assert SumCloses([b0]) == 10.0 && SumCloses([b1]) == 20.0;
    assert Window(data, 3, 2) == [b0, b1, b2];
    assert [b0, b1, b2][..2] == [b0, b1] && [b0, b1][..1] == [b0];
    assert SumCloses([b0, b1, b2]) == 60.0;
    assert Window(data, 3, 3) == [b1, b2, b3];
    assert [b1, b2, b3][..2] == [b1, b2] && [b1, b2][..1] == [b1];
    assert SumCloses([b1, b2, b3]) == 90.0;
  }

  // ---------------------------------------------------------------------
  // Two-day rule
  // ---------------------------------------------------------------------

  datatype RuleType = Breakout | Breakdown | Washout | Trend
  datatype RuleStatus = Trending | Validated | Failed | Gift | Watch | Stable

  /** `{ type, status }`; `type` is absent for a history shorter than three bars. */
  datatype RuleResult = RuleResult(kind: Option<RuleType>, status: RuleStatus)

  /** `day` closed above the average while the bar before it had not. */
  predicate CrossedAbove(before: Bar, day: Bar, ma: real) {
    day.close > ma && before.close <= ma
  }

  /** `day` closed below the average while the bar before it had not. */
  predicate CrossedBelow(before: Bar, day: Bar, ma: real) {
    day.close < ma && before.close >= ma
  }

  /**
   * `checkTwoDayRule`: classifies the last three bars (`dayBefore`,
   * `yesterday`, `today`) against one moving-average value. Day-2 checks on
   * yesterday's crossing come first (breakout before breakdown), then Day-1
   * checks on today's crossing, then the stable trend.
   */
  function CheckTwoDayRule(history: seq<Bar>, maValue: real): (r: RuleResult)
    ensures r.kind.None? <==> |history| < 3
    ensures r.kind.None? <==> r.status == Trending
    ensures r.status == Gift <==> r.kind == Some(Washout)
    ensures r.status == Stable <==> r.kind == Some(Trend)
    ensures r.status == Failed ==> r.kind == Some(Breakout)
    ensures r.status in {Validated, Watch} ==> r.kind in {Some(Breakout), Some(Breakdown)}
  {
    if |history| < 3 then RuleResult(None, Trending)
    else
      var today, yesterday, dayBefore := history[|history| - 1], history[|history| - 2], history[|history| - 3];
      if yesterday.close > maValue && dayBefore.close <= maValue then
        if today.high > yesterday.high then RuleResult(Some(Breakout), Validated)
        else RuleResult(Some(Breakout), Failed)
      else if yesterday.close < maValue && dayBefore.close >= maValue then
        if today.low < yesterday.low then RuleResult(Some(Breakdown), Validated)
        else RuleResult(Some(Washout), Gift)
      else if today.close > maValue && yesterday.close <= maValue then
        RuleResult(Some(Breakout), Watch)
      else if today.close < maValue && yesterday.close >= maValue then
        RuleResult(Some(Breakdown), Watch)
      else RuleResult(Some(Trend), Stable)
  }

  /**
   * The rule's outcome, stated as a partition of the possible three-bar
   * windows (`b` = dayBefore, `y` = yesterday, `t` = today) in precedence order.
   */
  lemma TwoDayRuleOutcomes(history: seq<Bar>, ma: real)
    requires |history| >= 3
    ensures var b, y, t := history[|history| - 3], history[|history| - 2], history[|history| - 1];
      var r := CheckTwoDayRule(history, ma);
      (r == RuleResult(Some(Breakout), Validated) <==> CrossedAbove(b, y, ma) && t.high > y.high)
      && (r == RuleResult(Some(Breakout), Failed) <==> CrossedAbove(b, y, ma) && t.high <= y.high)
      && (r == RuleResult(Some(Breakdown), Validated) <==> CrossedBelow(b, y, ma) && t.low < y.low)
      && (r == RuleResult(Some(Washout), Gift) <==> CrossedBelow(b, y, ma) && t.low >= y.low)
      && (r == RuleResult(Some(Breakout), Watch) <==>
            !CrossedAbove(b, y, ma) && !CrossedBelow(b, y, ma) && CrossedAbove(y, t, ma))
      && (r == RuleResult(Some(Breakdown), Watch) <==>
            !CrossedAbove(b, y, ma) && !CrossedBelow(b, y, ma) && CrossedBelow(y, t, ma))
      && (r == RuleResult(Some(Trend), Stable) <==>
            !CrossedAbove(b, y, ma) && !CrossedBelow(b, y, ma) && !CrossedAbove(y, t, ma) && !CrossedBelow(y, t, ma))
  {
  }

  /** The rule never looks before the last three bars. */
  lemma TwoDayRuleUsesLastThreeBars(earlier: seq<Bar>, history: seq<Bar>, ma: real)
    requires |history| >= 3
    ensures CheckTwoDayRule(earlier + history, ma) == CheckTwoDayRule(history, ma)
    ensures CheckTwoDayRule(history, ma) == CheckTwoDayRule(history[|history| - 3..], ma)
  {
    var h := earlier + history;
    assert h[|h| - 1] == history[|history| - 1];
    assert h[|h| - 2] == history[|history| - 2];
    assert h[|h| - 3] == history[|history| - 3];
  }

  /**
   * Day-2 checks take precedence over Day-1 checks: a Day-2 breakout is
   * reported even when today also closes back below the average.
   */
  lemma BreakoutDay2BeatsBreakdownDay1(history: seq<Bar>, ma: real)
    requires |history| >= 3
    requires history[|history| - 3].close <= ma < history[|history| - 2].close
    requires history[|history| - 1].close < ma
    ensures CheckTwoDayRule(history, ma).kind == Some(Breakout)
    ensures CheckTwoDayRule(history, ma).status != Watch
  {
  }

  /**
   * The asymmetry: a breakdown that makes no new low is a gift, a breakout
   * that makes no new high has merely failed.
   */
  lemma TwoDayRuleAsymmetry(history: seq<Bar>, ma: real)
    requires |history| >= 3
    ensures var b, y, t := history[|history| - 3], history[|history| - 2], history[|history| - 1];
      (CrossedBelow(b, y, ma) && t.low >= y.low ==> CheckTwoDayRule(history, ma).status == Gift)
      && (CrossedAbove(b, y, ma) && t.high <= y.high ==> CheckTwoDayRule(history, ma).status == Failed)
  {
  }

  // ---------------------------------------------------------------------
  // Position sizing
  // ---------------------------------------------------------------------

  /** The fixed fraction of total assets that one trade may lose. */
  const RiskFraction: real := 0.01

  lemma FloorBracket(x: real, d: real)
    requires d > 0.0
    ensures (x / d).Floor as real * d <= x < ((x / d).Floor + 1) as real * d
  {
    var q := x / d;
    var f := q.Floor;
    var lower, upper := f as real, (f + 1) as real;
    assert lower <= q < upper;
    assert q * d == x;
    assert (q - lower) * d >= 0.0;
    assert (upper - q) * d > 0.0;
    assert (upper - q) * d == upper * d - q * d;
    assert (q - lower) * d == q * d - lower * d;
    assert x < upper * d;
  }

  /**
   * `calculatePositionSize`: no position without downside risk; otherwise the
   * largest whole number of shares whose loss at the stop stays within 1% of
   * the total assets.
   */
  function CalculatePositionSize(totalAssets: real, entryPrice: real, stopLossPrice: real): (size: int)
    ensures entryPrice <= stopLossPrice ==> size == 0
    ensures entryPrice > stopLossPrice ==>
      size as real * (entryPrice - stopLossPrice) <= totalAssets * RiskFraction
      < (size + 1) as real * (entryPrice - stopLossPrice)
    ensures totalAssets >= 0.0 ==> size >= 0
  {
    if entryPrice <= stopLossPrice then 0
    else
      var riskPerShare := entryPrice - stopLossPrice;
      var totalRiskAllowed := totalAssets * RiskFraction;
      FloorBracket(totalRiskAllowed, riskPerShare);
      (totalRiskAllowed / riskPerShare).Floor
  }

  /** The worked example: 1,000,000 of assets, entry 100, stop 93 allow 1428 shares. */
  lemma PositionSizeExample()
    ensures CalculatePositionSize(1000000.0, 100.0, 93.0) == 1428
    ensures CalculatePositionSize(1000000.0, 100.0, 100.0) == 0
    ensures CalculatePositionSize(1000000.0, 90.0, 100.0) == 0
  {
    var s := CalculatePositionSize(1000000.0, 100.0, 93.0);
    assert s as real * 7.0 <= 10000.0 < (s + 1) as real * 7.0;
  }

  // ---------------------------------------------------------------------
  // Strategy advice
  // ---------------------------------------------------------------------

  datatype AdviceStatus =
    | Waiting | GiftBuy | WatchBreakout | WatchBreakdown
    | BullishConfirmed | BearishConfirmed | Consolidating | BullishTrend | BearishTrend

  /** The advisor's result: its status and colour hint (the advice text is not modelled). */
  datatype Advice = Advice(status: AdviceStatus, color: string)

  function Max(a: int, b: int): int { if a >= b then a else b }

  /** The period of the moving average the mode selects: `'short'` or any other mode. */
  function PrimaryPeriod(maShortPeriod: int, maLongPeriod: int, mode: string): int {
    if mode == "short" then maShortPeriod else maLongPeriod
  }

  /** The history is present and long enough for both averages plus three bars. */
  predicate EnoughHistory(history: Option<seq<Bar>>, maShortPeriod: int, maLongPeriod: int) {
    history.Some? && |history.value| >= Max(maShortPeriod, maLongPeriod) + 3
  }

  /** The last entry of the selected moving-average series, past the guard. */
  function PrimaryMA(history: seq<Bar>, maShortPeriod: int, maLongPeriod: int, mode: string): real
    requires maShortPeriod >= 1 && maLongPeriod >= 1
    requires |history| >= Max(maShortPeriod, maLongPeriod) + 3
  {
    MAAt(history, PrimaryPeriod(maShortPeriod, maLongPeriod, mode), |history| - 1).value
  }

  /**
   * `getStrategyAdvice`: waits on a missing or too-short history; otherwise
   * applies the two-day rule to the selected average and maps its outcome.
   */
  function GetStrategyAdvice(history: Option<seq<Bar>>, maShortPeriod: int, maLongPeriod: int, mode: string): (a: Advice)
    requires maShortPeriod >= 1 && maLongPeriod >= 1
    ensures a.status == Waiting <==> !EnoughHistory(history, maShortPeriod, maLongPeriod)
  {
    if !EnoughHistory(history, maShortPeriod, maLongPeriod) then Advice(Waiting, "text-gray-400")
    else
      var h := history.value;
      var lastPrice := h[|h| - 1].close;
      var primaryMAValue := PrimaryMA(h, maShortPeriod, maLongPeriod, mode);
      var rule := CheckTwoDayRule(h, primaryMAValue);
      if rule.kind == Some(Washout) && rule.status == Gift then Advice(GiftBuy, "text-orange-500")
      else if rule.status == Watch then
        if rule.kind == Some(Breakout) then Advice(WatchBreakout, "text-yellow-500")
        else Advice(WatchBreakdown, "text-yellow-600")
      else if rule.status == Validated then
        if rule.kind == Some(Breakout) then Advice(BullishConfirmed, "text-red-500")
        else Advice(BearishConfirmed, "text-green-500")
      else if rule.status == Failed then Advice(Consolidating, "text-gray-300")
      else if lastPrice > primaryMAValue then Advice(BullishTrend, "text-red-400")
      else Advice(BearishTrend, "text-green-600")
  }

  /** Past the guard, the selected last moving-average entry exists. */
  lemma PrimaryMAPresent(history: seq<Bar>, maShortPeriod: int, maLongPeriod: int, mode: string)
    requires maShortPeriod >= 1 && maLongPeriod >= 1
    requires |history| >= Max(maShortPeriod, maLongPeriod) + 3
    ensures MAAt(history, PrimaryPeriod(maShortPeriod, maLongPeriod, mode), |history| - 1).Some?
    ensures mode == "short" ==>
      MAAt(history, maShortPeriod, |history| - 1).Some?
      && PrimaryMA(history, maShortPeriod, maLongPeriod, mode) == MAAt(history, maShortPeriod, |history| - 1).value
    ensures mode != "short" ==>
      MAAt(history, maLongPeriod, |history| - 1).Some?
      && PrimaryMA(history, maShortPeriod, maLongPeriod, mode) == MAAt(history, maLongPeriod, |history| - 1).value
  {
  }

  /** How each two-day-rule outcome maps to an advisory status. */
  lemma AdviceFollowsRule(history: seq<Bar>, maShortPeriod: int, maLongPeriod: int, mode: string)
    requires maShortPeriod >= 1 && maLongPeriod >= 1
    requires |history| >= Max(maShortPeriod, maLongPeriod) + 3
    ensures var ma := PrimaryMA(history, maShortPeriod, maLongPeriod, mode);
      var rule := CheckTwoDayRule(history, ma);
      var s := GetStrategyAdvice(Some(history), maShortPeriod, maLongPeriod, mode).status;
      (rule.status == Gift ==> s == GiftBuy)
      && (rule == RuleResult(Some(Breakout), Watch) ==> s == WatchBreakout)
      && (rule == RuleResult(Some(Breakdown), Watch) ==> s == WatchBreakdown)
      && (rule == RuleResult(Some(Breakout), Validated) ==> s == BullishConfirmed)
      && (rule == RuleResult(Some(Breakdown), Validated) ==> s == BearishConfirmed)
      && (rule.status == Failed ==> s == Consolidating)
      && (rule.status == Stable ==> s == (if history[|history| - 1].close > ma then BullishTrend else BearishTrend))
  {
  }

  /**
   * The gift scenario: yesterday broke below the average, today made no new
   * low, so the advisor signals a buy.
   */
  lemma GiftScenario(history: seq<Bar>, maShortPeriod: int, maLongPeriod: int, mode: string)
    requires maShortPeriod >= 1 && maLongPeriod >= 1
    requires |history| >= Max(maShortPeriod, maLongPeriod) + 3
    requires var ma, n := PrimaryMA(history, maShortPeriod, maLongPeriod, mode), |history|;
      history[n - 3].close >= ma && history[n - 2].close < ma && history[n - 1].low >= history[n - 2].low
    ensures GetStrategyAdvice(Some(history), maShortPeriod, maLongPeriod, mode).status == GiftBuy
  {
  }

  /** The validated breakout scenario: the advisor confirms the bullish signal. */
  lemma BreakoutValidatedScenario(history: seq<Bar>, maShortPeriod: int, maLongPeriod: int, mode: string)
    requires maShortPeriod >= 1 && maLongPeriod >= 1
    requires |history| >= Max(maShortPeriod, maLongPeriod) + 3
    requires var ma, n := PrimaryMA(history, maShortPeriod, maLongPeriod, mode), |history|;
      history[n - 3].close <= ma && history[n - 2].close > ma && history[n - 1].high > history[n - 2].high
    ensures GetStrategyAdvice(Some(history), maShortPeriod, maLongPeriod, mode).status == BullishConfirmed
  {
  }

  /** A trend status reports the side of the average the last close is on. */
  lemma TrendStatusMatchesLastClose(history: seq<Bar>, maShortPeriod: int, maLongPeriod: int, mode: string)
    requires maShortPeriod >= 1 && maLongPeriod >= 1
    requires |history| >= Max(maShortPeriod, maLongPeriod) + 3
    ensures var s := GetStrategyAdvice(Some(history), maShortPeriod, maLongPeriod, mode).status;
      var ma := PrimaryMA(history, maShortPeriod, maLongPeriod, mode);
      (s == BullishTrend ==> history[|history| - 1].close > ma)
      && (s == BearishTrend ==> history[|history| - 1].close <= ma)
  {
  }
}
