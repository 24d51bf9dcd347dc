/**
 * The portfolio summary's two status badges: whether the Taiwan market is in
 * its trading session, and where the quotes on screen come from.
 */
module Market {
  import opened Basics
  import opened Text
  import opened Stock

  /**
   * Trading session from Monday to Friday, 9:00 to 13:30 inclusive, read
   * from the local clock: `day` as `getDay` gives it (0 is Sunday), `hour`
   * and `minute` as `getHours` and `getMinutes` give them.
   */
  function IsMarketOpen(day: int, hour: int, minute: int): (r: bool)
    ensures r ==> day != 0 && day != 6
    ensures r ==> 9 * 60 <= hour * 60 + minute <= 13 * 60 + 30
  {
    if day == 0 || day == 6 then false
    else
      var timeValue := hour * 60 + minute;
      timeValue >= 9 * 60 && timeValue <= 13 * 60 + 30
  }

  /**
   * Read on a real clock face, the session is Monday to Friday from 9:00
   * up to and including 13:30.
   */
  lemma MarketHoursOnTheClock(day: int, hour: int, minute: int)
    requires 0 <= day <= 6 && 0 <= hour <= 23 && 0 <= minute <= 59
    ensures IsMarketOpen(day, hour, minute) <==>
      1 <= day <= 5 && (9 <= hour <= 12 || (hour == 13 && minute <= 30))
  {
  }

  /** The first and the last minute of the session, and one minute past it. */
  lemma SessionEdges()
    ensures IsMarketOpen(1, 9, 0) && IsMarketOpen(5, 13, 30)
    ensures !IsMarketOpen(3, 8, 59) && !IsMarketOpen(3, 13, 31)
    ensures !IsMarketOpen(6, 10, 0) && !IsMarketOpen(0, 10, 0)
  {
  }

  datatype BadgeColor = Green | Yellow | Gray

  datatype DataSourceInfo = DataSourceInfo(isReal: bool, caption: string, color: BadgeColor)

  /**
   * A quote's source counts as real when it is present (not empty) and
   * does not start with "MOCK".
   */
  predicate IsRealSource(source: string) {
    source != "" && !StartsWith(source, "MOCK")
  }

  /** The real sources among the quotes in the map. */
  function RealSources(quotes: map<string, StockData>): (sources: set<string>)
    ensures forall s :: s in sources <==>
      IsRealSource(s) && exists d :: d in quotes.Values && d.dataSource == s
  {
    set d | d in quotes.Values && IsRealSource(d.dataSource) :: d.dataSource
  }

  predicate AnyContains(sources: set<string>, word: string) {
    exists s :: s in sources && Contains(s, word)
  }

  /**
   * The badge: no quotes at all, then Yahoo before the exchange's own API
   * before any other real source, and simulated data when no source is real.
   */
  function GetDataSourceInfo(quotes: Option<map<string, StockData>>): (info: DataSourceInfo)
    ensures info.isReal <==> info.color == Green
    ensures info.isReal <==> quotes.Some? && RealSources(quotes.value) != {}
    ensures info.color == Gray <==> quotes.None? || |quotes.value| == 0
    ensures info.color == Gray ==> info == DataSourceInfo(false, "無資料", Gray)
    ensures info.color == Yellow ==> info == DataSourceInfo(false, "模擬數據", Yellow)
  {
    if quotes.None? || |quotes.value| == 0 then
      DataSourceInfo(false, "無資料", Gray)
    else
      var realSources := RealSources(quotes.value);
      if realSources != {} then
        if AnyContains(realSources, "YAHOO") then DataSourceInfo(true, "Yahoo Finance", Green)
        else if AnyContains(realSources, "REAL") then DataSourceInfo(true, "TWSE API", Green)
        else DataSourceInfo(true, "API 連線", Green)
      else
        DataSourceInfo(false, "模擬數據", Yellow)
  }

  /**
   * Which caption shows: Yahoo exactly when a real source names Yahoo, the
   * exchange's API exactly when none does but one says REAL.
   */
  lemma DataSourceLabels(quotes: map<string, StockData>)
    ensures GetDataSourceInfo(Some(quotes)).caption == "Yahoo Finance" <==>
      AnyContains(RealSources(quotes), "YAHOO")
    ensures GetDataSourceInfo(Some(quotes)).caption == "TWSE API" <==>
      !AnyContains(RealSources(quotes), "YAHOO") && AnyContains(RealSources(quotes), "REAL")
    ensures GetDataSourceInfo(Some(quotes)).caption == "API 連線" <==>
      RealSources(quotes) != {} && !AnyContains(RealSources(quotes), "YAHOO")
      && !AnyContains(RealSources(quotes), "REAL")
  {
    var r := RealSources(quotes);
    if AnyContains(r, "YAHOO") || AnyContains(r, "REAL") {
      var s :| s in r;
      var d :| d in quotes.Values && d.dataSource == s;
      assert d in quotes.Values;
      var k :| k in quotes && quotes[k] == d;
      assert k in quotes.Keys;
      assert |quotes| != 0;
    }
  }

  /** A map whose every quote is mocked (or has no source) shows the simulated badge. */
  lemma MockOnlyIsSimulated(quotes: map<string, StockData>)
    requires |quotes| > 0
    requires forall k :: k in quotes ==> !IsRealSource(quotes[k].dataSource)
    ensures GetDataSourceInfo(Some(quotes)) == DataSourceInfo(false, "模擬數據", Yellow)
  {
  }

  /** One Yahoo quote decides the badge, whatever else the map holds. */
  lemma OneYahooQuoteWins(quotes: map<string, StockData>, symbol: string, d: StockData)
    requires StartsWith(d.dataSource, "YAHOO")
    ensures GetDataSourceInfo(Some(quotes[symbol := d])) == DataSourceInfo(true, "Yahoo Finance", Green)
  {
    var q := quotes[symbol := d];
    assert q[symbol] == d;
    assert d in q.Values;
    assert symbol in q.Keys;
    StartsWithContains(d.dataSource, "YAHOO");
    assert !StartsWith(d.dataSource, "MOCK") by {
      assert d.dataSource[0] == 'Y';
    }
    assert d.dataSource in RealSources(q);
  }
}
