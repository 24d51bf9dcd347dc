/**
 * Health scoring of one stock: a tiered additive score clamped to [0, 100],
 * the itemised report behind it, the score label and the moving-average
 * arrangement.
 */
module Health {
  import opened Basics
  import opened Stock

  // ---------------------------------------------------------------------
  // Moving-average arrangement
  // ---------------------------------------------------------------------

  datatype Arrangement = Bullish | Bearish | Neutral

  /**
   * `analyzeMovingAverages`: bullish when price, 20-day and 60-day averages
   * are stacked upwards, bearish when stacked downwards, otherwise neutral.
   */
  function AnalyzeMovingAverages(d: StockData): (a: Arrangement)
    ensures a == Bullish <==> d.price > d.ma20 > d.ma60
    ensures a == Bearish <==> d.price < d.ma20 < d.ma60
  {
    if d.price > d.ma20 && d.ma20 > d.ma60 then Bullish
    else if d.price < d.ma20 && d.ma20 < d.ma60 then Bearish
    else Neutral
  }

  // ---------------------------------------------------------------------
  // Score
  // ---------------------------------------------------------------------

  /** The score every stock with data starts from. */
  const BaseScore: int := 50

  /** ROE tier: 20 above 20%, 15 above 15%, 10 above 10%, 5 above 5%, else 0. */
  function RoeTier(roe: real): (t: int)
    ensures t in {0, 5, 10, 15, 20}
  {
    if roe > 20.0 then 20 else if roe > 15.0 then 15 else if roe > 10.0 then 10
    else if roe > 5.0 then 5 else 0
  }

  /** P/E tier: 10 within [10, 15], 7 within [8, 20], 4 within [5, 25], else 0. */
  function PeTier(pe: real): (t: int)
    ensures t in {0, 4, 7, 10}
  {
    if 10.0 <= pe <= 15.0 then 10 else if 8.0 <= pe <= 20.0 then 7
    else if 5.0 <= pe <= 25.0 then 4 else 0
  }

  /** Dividend-yield tier: 10 above 5%, 7 above 3%, 4 above 2%, 2 above 1%, else 0. */
  function YieldTier(dividendYield: real): (t: int)
    ensures t in {0, 2, 4, 7, 10}
  {
    if dividendYield > 5.0 then 10 else if dividendYield > 3.0 then 7
    else if dividendYield > 2.0 then 4 else if dividendYield > 1.0 then 2 else 0
  }

  /** Moving-average tier: 30 upward stack, 5 downward stack, 15 otherwise. */
  function MaTier(d: StockData): (t: int)
    ensures t in {5, 15, 30}
  {
    if d.price > d.ma20 && d.ma20 > d.ma60 then 30
    else if d.price < d.ma20 && d.ma20 < d.ma60 then 5
    else 15
  }

  function Clamp(x: int): (c: int)
    ensures 0 <= c <= 100
    ensures 0 <= x <= 100 ==> c == x
  {
    if x > 100 then 100 else if x < 0 then 0 else x
  }

  /** The health score: 0 without data, else the clamped sum of base and tiers. */
  function HealthScore(data: Option<StockData>): (score: int)
    ensures 0 <= score <= 100
    ensures data.None? ==> score == 0
    ensures data.Some? ==> score >= 55
  {
    match data
    case None => 0
    case Some(d) => Clamp(BaseScore + RoeTier(d.roe) + PeTier(d.pe) + YieldTier(d.dividendYield) + MaTier(d))
  }

  /** `calculateHealthScore`: accumulates the tiers onto the base score, then clamps. */
  method CalculateHealthScore(data: Option<StockData>) returns (score: int)
    ensures score == HealthScore(data)
  {
    if data.None? {
      return 0;
    }
    var d := data.value;
    score := 50;

    if d.roe > 20.0 { score := score + 20; }
    else if d.roe > 15.0 { score := score + 15; }
    else if d.roe > 10.0 { score := score + 10; }
    else if d.roe > 5.0 { score := score + 5; }

    if d.pe >= 10.0 && d.pe <= 15.0 { score := score + 10; }
    else if d.pe >= 8.0 && d.pe <= 20.0 { score := score + 7; }
    else if d.pe >= 5.0 && d.pe <= 25.0 { score := score + 4; }

    if d.dividendYield > 5.0 { score := score + 10; }
    else if d.dividendYield > 3.0 { score := score + 7; }
    else if d.dividendYield > 2.0 { score := score + 4; }
    else if d.dividendYield > 1.0 { score := score + 2; }

    if d.price > d.ma20 && d.ma20 > d.ma60 { score := score + 30; }
    else if d.price < d.ma20 && d.ma20 < d.ma60 { score := score + 5; }
    else { score := score + 15; }

    score := if score > 100 then 100 else if score < 0 then 0 else score;
  }

  /** The moving-average tier is 30 exactly on a bullish and 5 exactly on a bearish arrangement. */
  lemma MaTierMatchesArrangement(d: StockData)
    ensures MaTier(d) == 30 <==> AnalyzeMovingAverages(d) == Bullish
    ensures MaTier(d) == 5 <==> AnalyzeMovingAverages(d) == Bearish
    ensures MaTier(d) == 15 <==> AnalyzeMovingAverages(d) == Neutral
  {
  }

  /** Raising ROE, all else fixed, never lowers the score. */
  lemma ScoreMonotoneInRoe(d: StockData, roe: real)
    requires roe >= d.roe
    ensures HealthScore(Some(d.(roe := roe))) >= HealthScore(Some(d))
  {
  }

  /** Raising the dividend yield, all else fixed, never lowers the score. */
  lemma ScoreMonotoneInYield(d: StockData, dividendYield: real)
    requires dividendYield >= d.dividendYield
    ensures HealthScore(Some(d.(dividendYield := dividendYield))) >= HealthScore(Some(d))
  {
  }

  // ---------------------------------------------------------------------
  // Report
  // ---------------------------------------------------------------------

  datatype Topic = Roe | Pe | DividendYield | Technical | Volatility
  datatype ReasonKind = Good | Bad | Warning

  /** One report item; its localised sentence is not modelled. */
  datatype Reason = Reason(topic: Topic, kind: ReasonKind)

  function TopicOrder(t: Topic): nat {
    match t
    case Roe => 0
    case Pe => 1
    case DividendYield => 2
    case Technical => 3
    case Volatility => 4
  }

  /** The report item on ROE: good above 15%, bad below 5%. */
  function RoeItem(d: StockData): (item: seq<Reason>)
    ensures |item| <= 1 && forall x :: x in item ==> x.topic == Roe
    ensures (Reason(Roe, Good) in item <==> d.roe > 15.0) && (Reason(Roe, Bad) in item <==> d.roe < 5.0)
  {
    if d.roe > 15.0 then [Reason(Roe, Good)] else if d.roe < 5.0 then [Reason(Roe, Bad)] else []
  }

  /** The report item on P/E: good within [10, 20], bad above 25. */
  function PeItem(d: StockData): (item: seq<Reason>)
    ensures |item| <= 1 && forall x :: x in item ==> x.topic == Pe
    ensures (Reason(Pe, Good) in item <==> 10.0 <= d.pe <= 20.0) && (Reason(Pe, Bad) in item <==> d.pe > 25.0)
  {
    if d.pe >= 10.0 && d.pe <= 20.0 then [Reason(Pe, Good)] else if d.pe > 25.0 then [Reason(Pe, Bad)] else []
  }

  /** The report item on dividend yield: good above 4%. */
  function YieldItem(d: StockData): (item: seq<Reason>)
    ensures |item| <= 1 && forall x :: x in item ==> x.topic == DividendYield
    ensures Reason(DividendYield, Good) in item <==> d.dividendYield > 4.0
  {
    if d.dividendYield > 4.0 then [Reason(DividendYield, Good)] else []
  }

  /** The technical item: good on an upward stack, bad on a downward one. */
  function TechnicalItem(d: StockData): (item: seq<Reason>)
    ensures |item| <= 1 && forall x :: x in item ==> x.topic == Technical
    ensures Reason(Technical, Good) in item <==> AnalyzeMovingAverages(d) == Bullish
    ensures Reason(Technical, Bad) in item <==> AnalyzeMovingAverages(d) == Bearish
  {
    if d.price > d.ma20 && d.ma20 > d.ma60 then [Reason(Technical, Good)]
    else if d.price < d.ma20 && d.ma20 < d.ma60 then [Reason(Technical, Bad)]
    else []
  }

  /** The volatility item: a warning above 30%. */
  function VolatilityItem(d: StockData): (item: seq<Reason>)
    ensures |item| <= 1 && forall x :: x in item ==> x.topic == Volatility
    ensures Reason(Volatility, Warning) in item <==> d.volatility > 30.0
  {
    if d.volatility > 30.0 then [Reason(Volatility, Warning)] else []
  }

  /** The report on one stock: its items in topic order, none without data. */
  function HealthReport(data: Option<StockData>): seq<Reason> {
    match data
    case None => []
    case Some(d) => RoeItem(d) + PeItem(d) + YieldItem(d) + TechnicalItem(d) + VolatilityItem(d)
  }

  /** `generateHealthReport`: pushes the item of each topic whose threshold is met. */
  method GenerateHealthReport(data: Option<StockData>) returns (reasons: seq<Reason>)
    ensures reasons == HealthReport(data)
  {
    reasons := [];
    if data.None? {
      return;
    }
    var d := data.value;

    var roe, pe, dividend, technical, volatility := RoeItem(d), PeItem(d), YieldItem(d), TechnicalItem(d), VolatilityItem(d);
    reasons := PushFirstMet(reasons, d.roe > 15.0, Reason(Roe, Good), d.roe < 5.0, Reason(Roe, Bad));
    assert reasons == roe;
    reasons := PushFirstMet(reasons, d.pe >= 10.0 && d.pe <= 20.0, Reason(Pe, Good), d.pe > 25.0, Reason(Pe, Bad));
    assert reasons == roe + pe;
    reasons := PushFirstMet(reasons, d.dividendYield > 4.0, Reason(DividendYield, Good), false, Reason(DividendYield, Good));
    assert reasons == roe + pe + dividend;
    reasons := PushFirstMet(reasons, d.price > d.ma20 && d.ma20 > d.ma60, Reason(Technical, Good),
                            d.price < d.ma20 && d.ma20 < d.ma60, Reason(Technical, Bad));
    assert reasons == roe + pe + dividend + technical;
    reasons := PushFirstMet(reasons, d.volatility > 30.0, Reason(Volatility, Warning), false, Reason(Volatility, Warning));
  }

  /** One `if (…) push(…) else if (…) push(…)` step of the report. */
  method PushFirstMet(reasons: seq<Reason>, first: bool, x: Reason, second: bool, y: Reason) returns (r: seq<Reason>)
    ensures first ==> r == reasons + [x]
    ensures !first && second ==> r == reasons + [y]
    ensures !first && !second ==> r == reasons
  {
    r := reasons;
    if first {
      r := r + [x];
    } else if second {
      r := r + [y];
    }
  }

  /** The topics strictly increase along `s`. */
  predicate TopicsIncreasing(s: seq<Reason>) {
    forall i, j :: 0 <= i < j < |s| ==> TopicOrder(s[i].topic) < TopicOrder(s[j].topic)
  }

  lemma AppendItem(s: seq<Reason>, item: seq<Reason>, t: Topic)
    requires TopicsIncreasing(s)
    requires forall x :: x in s ==> TopicOrder(x.topic) < TopicOrder(t)
    requires |item| <= 1 && forall x :: x in item ==> x.topic == t
    ensures TopicsIncreasing(s + item)
    ensures forall x :: x in s + item ==> TopicOrder(x.topic) <= TopicOrder(t)
  {
    var r := s + item;
    forall i, j | 0 <= i < j < |r| ensures TopicOrder(r[i].topic) < TopicOrder(r[j].topic) {
      if j < |s| {
        assert r[i] == s[i] && r[j] == s[j];
      } else {
        assert r[i] == s[i] && r[j] in item;
      }
    }
  }

  /** The report holds at most one item per topic, in topic order. */
  lemma HealthReportShape(data: Option<StockData>)
    ensures |HealthReport(data)| <= 5
    ensures TopicsIncreasing(HealthReport(data))
  {
    if data.Some? {
      var d := data.value;
      AppendItem(RoeItem(d), PeItem(d), Pe);
      AppendItem(RoeItem(d) + PeItem(d), YieldItem(d), DividendYield);
      AppendItem(RoeItem(d) + PeItem(d) + YieldItem(d), TechnicalItem(d), Technical);
      AppendItem(RoeItem(d) + PeItem(d) + YieldItem(d) + TechnicalItem(d), VolatilityItem(d), Volatility);
    }
  }

  /**
   * Without data the report is empty; otherwise each item is present exactly
   * when its threshold is met.
   */
  lemma HealthReportItems(data: Option<StockData>)
    ensures data.None? ==> HealthReport(data) == []
    ensures data.Some? ==>
      var d, r := data.value, HealthReport(data);
      (Reason(Roe, Good) in r <==> d.roe > 15.0)
      && (Reason(Roe, Bad) in r <==> d.roe < 5.0)
      && (Reason(Pe, Good) in r <==> 10.0 <= d.pe <= 20.0)
      && (Reason(Pe, Bad) in r <==> d.pe > 25.0)
      && (Reason(DividendYield, Good) in r <==> d.dividendYield > 4.0)
      && (Reason(Technical, Good) in r <==> AnalyzeMovingAverages(d) == Bullish)
      && (Reason(Technical, Bad) in r <==> AnalyzeMovingAverages(d) == Bearish)
      && (Reason(Volatility, Warning) in r <==> d.volatility > 30.0)
  {
    if data.Some? {
      var d := data.value;
      ReportMembers(d, Reason(Roe, Good));
      ReportMembers(d, Reason(Roe, Bad));
      ReportMembers(d, Reason(Pe, Good));
      ReportMembers(d, Reason(Pe, Bad));
      ReportMembers(d, Reason(DividendYield, Good));
      ReportMembers(d, Reason(Technical, Good));
      ReportMembers(d, Reason(Technical, Bad));
      ReportMembers(d, Reason(Volatility, Warning));
    }
  }

  /** An item is in the report exactly when its own topic's item holds it. */
  lemma ReportMembers(d: StockData, x: Reason)
    ensures x in HealthReport(Some(d)) <==>
      match x.topic
      case Roe => x in RoeItem(d)
      case Pe => x in PeItem(d)
      case DividendYield => x in YieldItem(d)
      case Technical => x in TechnicalItem(d)
      case Volatility => x in VolatilityItem(d)
  {
    var a, b, c, t, v := RoeItem(d), PeItem(d), YieldItem(d), TechnicalItem(d), VolatilityItem(d);
    assert HealthReport(Some(d)) == a + b + c + t + v;
    assert x in a + b + c + t + v <==> x in a || x in b || x in c || x in t || x in v;
  }

  // ---------------------------------------------------------------------
  // Label
  // ---------------------------------------------------------------------

  datatype HealthLabel = Healthy | Normal | Observe | Alert

  /** 0 for the best label, 3 for the worst. */
  function Severity(l: HealthLabel): nat {
    match l
    case Healthy => 0
    case Normal => 1
    case Observe => 2
    case Alert => 3
  }

  /** `getHealthStatus`: thresholds 80, 60 and 40. */
  function GetHealthStatus(score: int): (l: HealthLabel)
    ensures l == Healthy <==> score >= 80
    ensures l == Normal <==> 60 <= score < 80
    ensures l == Observe <==> 40 <= score < 60
    ensures l == Alert <==> score < 40
  {
    if score >= 80 then Healthy else if score >= 60 then Normal else if score >= 40 then Observe else Alert
  }

  /** A higher score never receives a worse label. */
  lemma HealthStatusMonotone(s1: int, s2: int)
    requires s1 <= s2
    ensures Severity(GetHealthStatus(s2)) <= Severity(GetHealthStatus(s1))
  {
  }
}
