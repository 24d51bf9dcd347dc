/**
 * Portfolio arithmetic: the profit/loss colour class, the totals over the
 * holdings and the split of the market value by industry sector.
 */
module Calculations {
  import opened Stock

  /** The colour class of a profit or loss (red for gains, green for losses). */
  datatype PLClass = Gain | Loss | Neutral

  /** The CSS class name the source returns for each colour. */
  function PLClassName(c: PLClass): string {
    match c
    case Gain => "gain"
    case Loss => "loss"
    case Neutral => "text-gray-400"
  }

  function GetPLColorClass(value: real): (c: PLClass)
    ensures c == Gain <==> value > 0.0
    ensures c == Loss <==> value < 0.0
    ensures c == Neutral <==> value == 0.0
  {
    if value > 0.0 then Gain else if value < 0.0 then Loss else Neutral
  }

  function Cost(h: Holding): real { h.shares * h.avgCost }

  function MarketValue(h: Holding): real { h.shares * h.currentPrice }

  /** The sum of the costs of the holdings. */
  function TotalCost(hs: seq<Holding>): real {
    if hs == [] then 0.0 else TotalCost(hs[..|hs| - 1]) + Cost(hs[|hs| - 1])
  }

  /** The sum of the market values of the holdings. */
  function TotalMarketValue(hs: seq<Holding>): real {
    if hs == [] then 0.0 else TotalMarketValue(hs[..|hs| - 1]) + MarketValue(hs[|hs| - 1])
  }

  datatype Metrics = Metrics(totalCost: real, totalMarketValue: real, unrealizedPL: real, roi: real)

  /** The return on investment in percent, 0 while nothing was invested. */
  function Roi(unrealizedPL: real, totalCost: real): real {
    if totalCost > 0.0 then unrealizedPL / totalCost * 100.0 else 0.0
  }

  method CalculatePortfolioMetrics(hs: seq<Holding>) returns (m: Metrics)
    ensures m.totalCost == TotalCost(hs)
    ensures m.totalMarketValue == TotalMarketValue(hs)
    ensures m.unrealizedPL == TotalMarketValue(hs) - TotalCost(hs)
    ensures m.roi == Roi(m.unrealizedPL, m.totalCost)
  {
    var totalCost := 0.0;
    var totalMarketValue := 0.0;
    for i := 0 to |hs|
      invariant totalCost == TotalCost(hs[..i])
      invariant totalMarketValue == TotalMarketValue(hs[..i])
    {
      assert hs[..i + 1][..i] == hs[..i];
      totalCost := totalCost + Cost(hs[i]);
      totalMarketValue := totalMarketValue + MarketValue(hs[i]);
    }
    assert hs[..|hs|] == hs;
    var unrealizedPL := totalMarketValue - totalCost;
    m := Metrics(totalCost, totalMarketValue, unrealizedPL, Roi(unrealizedPL, totalCost));
  }

  /** The totals split over a concatenation of holdings lists. */
  lemma {:induction false} TotalsAppend(a: seq<Holding>, b: seq<Holding>)
    ensures TotalCost(a + b) == TotalCost(a) + TotalCost(b)
    ensures TotalMarketValue(a + b) == TotalMarketValue(a) + TotalMarketValue(b)
    decreases |b|
  {
    if b == [] {
      assert a + b == a;
    } else {
      var init := b[..|b| - 1];
      assert (a + b)[..|a + b| - 1] == a + init;
      TotalsAppend(a, init);
    }
  }

  /**
   * The return has the sign of the unrealized result, so the summary shows
   * both in the same colour.
   */
  lemma RoiHasSignOfPL(unrealizedPL: real, totalCost: real)
    requires totalCost > 0.0
    ensures GetPLColorClass(Roi(unrealizedPL, totalCost)) == GetPLColorClass(unrealizedPL)
  {
    var r := unrealizedPL / totalCost;
    assert r * totalCost == unrealizedPL;
    if unrealizedPL > 0.0 {
      assert r > 0.0;
    } else if unrealizedPL < 0.0 {
      assert r < 0.0;
    }
  }

  /** A portfolio whose prices equal its average costs shows neither gain nor loss. */
  lemma {:induction false} AtCostNoPL(hs: seq<Holding>)
    requires forall i :: 0 <= i < |hs| ==> hs[i].currentPrice == hs[i].avgCost
    ensures TotalMarketValue(hs) == TotalCost(hs)
  {
    if hs != [] {
      AtCostNoPL(hs[..|hs| - 1]);
    }
  }

  // ---------------------------------------------------------------------
  // Sector exposure
  // ---------------------------------------------------------------------

  /** The holding has a quote record, so its sector is known. */
  predicate Included(h: Holding, quotes: map<string, StockData>) {
    h.symbol in quotes
  }

  /** The sectors of the included holdings, each once, in order of first appearance. */
  function SectorsOf(hs: seq<Holding>, quotes: map<string, StockData>): (names: seq<string>)
    ensures forall i, j :: 0 <= i < j < |names| ==> names[i] != names[j]
  {
    if hs == [] then []
    else
      var names := SectorsOf(hs[..|hs| - 1], quotes);
      var h := hs[|hs| - 1];
      if Included(h, quotes) && quotes[h.symbol].sector !in names
      then names + [quotes[h.symbol].sector]
      else names
  }

  /** The market value of the included holdings in `sector`. */
  function SectorValue(hs: seq<Holding>, quotes: map<string, StockData>, sector: string): real {
    if hs == [] then 0.0
    else
      var h := hs[|hs| - 1];
      SectorValue(hs[..|hs| - 1], quotes, sector)
      + (if Included(h, quotes) && quotes[h.symbol].sector == sector then MarketValue(h) else 0.0)
  }

  /** The market value of all included holdings. */
  function IncludedValue(hs: seq<Holding>, quotes: map<string, StockData>): real {
    if hs == [] then 0.0
    else
      var h := hs[|hs| - 1];
      IncludedValue(hs[..|hs| - 1], quotes) + (if Included(h, quotes) then MarketValue(h) else 0.0)
  }

  datatype SectorEntry = SectorEntry(name: string, value: real, percentage: real)

  /** A sector's share of the total in percent, 0 unless the total is positive. */
  function Percentage(value: real, total: real): real {
    if total > 0.0 then value / total * 100.0 else 0.0
  }

  /** The sum of the values of the sectors `names` in the accumulated map. */
  function SumValues(names: seq<string>, values: map<string, real>): real
    requires forall n :: n in names ==> n in values
  {
    if names == [] then 0.0
    else SumValues(names[..|names| - 1], values) + values[names[|names| - 1]]
  }

  function SumEntryValues(es: seq<SectorEntry>): real {
    if es == [] then 0.0 else SumEntryValues(es[..|es| - 1]) + es[|es| - 1].value
  }

  function SumPercentages(es: seq<SectorEntry>): real {
    if es == [] then 0.0 else SumPercentages(es[..|es| - 1]) + es[|es| - 1].percentage
  }

  /**
   * One entry per sector that an included holding belongs to, in order of
   * first appearance, with the sector's market value and its share of the
   * total.
   */
  method CalculateSectorExposure(hs: seq<Holding>, quotes: map<string, StockData>)
    returns (entries: seq<SectorEntry>)
    ensures |entries| == |SectorsOf(hs, quotes)|
    ensures forall k :: 0 <= k < |entries| ==>
              entries[k].name == SectorsOf(hs, quotes)[k]
              && entries[k].value == SectorValue(hs, quotes, entries[k].name)
              && entries[k].percentage == Percentage(entries[k].value, IncludedValue(hs, quotes))
  {
    var sectorMap, order := AccumulateSectors(hs, quotes);
    var total := SumSectorMap(order, sectorMap);
    SumOfSectorValues(hs, quotes);
    SumValuesIsSectorSum(order, sectorMap, hs, quotes);
    entries := [];
    for k := 0 to |order|
      invariant |entries| == k
      invariant forall j :: 0 <= j < k ==>
                  entries[j] == SectorEntry(order[j], sectorMap[order[j]], Percentage(sectorMap[order[j]], total))
    {
      var name := order[k];
      entries := entries + [SectorEntry(name, sectorMap[name], Percentage(sectorMap[name], total))];
    }
  }

  /** The `forEach` that fills the sector map, with the map's key order beside it. */
  method AccumulateSectors(hs: seq<Holding>, quotes: map<string, StockData>)
    returns (sectorMap: map<string, real>, order: seq<string>)
    ensures order == SectorsOf(hs, quotes)
    ensures sectorMap.Keys == set n | n in order
    ensures forall n :: n in sectorMap ==> sectorMap[n] == SectorValue(hs, quotes, n)
  {
    sectorMap := map[];
    order := [];
    for i := 0 to |hs|
      invariant order == SectorsOf(hs[..i], quotes)
      invariant sectorMap.Keys == set n | n in order
      invariant forall n :: n in sectorMap ==> sectorMap[n] == SectorValue(hs[..i], quotes, n)
    {
      assert hs[..i + 1][..i] == hs[..i];
      var h := hs[i];
      if h.symbol in quotes {
        var sector := quotes[h.symbol].sector;
        if sector !in sectorMap {
          SectorValueOfUnseen(hs[..i], quotes, sector);
          sectorMap := sectorMap[sector := 0.0];
          order := order + [sector];
        }
        sectorMap := sectorMap[sector := sectorMap[sector] + MarketValue(h)];
      }
    }
    assert hs[..|hs|] == hs;
  }

  /** `Object.values(sectorMap).reduce(+, 0)`. */
  method SumSectorMap(order: seq<string>, sectorMap: map<string, real>) returns (total: real)
    requires forall n :: n in order ==> n in sectorMap
    ensures total == SumValues(order, sectorMap)
  {
    total := 0.0;
    for k := 0 to |order|
      invariant total == SumValues(order[..k], sectorMap)
    {
      assert order[..k + 1][..k] == order[..k];
      total := total + sectorMap[order[k]];
    }
    assert order[..|order|] == order;
  }

  /** The sum over `names` of their sector values. */
  function SumSectorValues(names: seq<string>, hs: seq<Holding>, quotes: map<string, StockData>): real {
    if names == [] then 0.0
    else SumSectorValues(names[..|names| - 1], hs, quotes) + SectorValue(hs, quotes, names[|names| - 1])
  }

  lemma {:induction false} SumValuesIsSectorSum(names: seq<string>, values: map<string, real>,
                                                hs: seq<Holding>, quotes: map<string, StockData>)
    requires forall n :: n in names ==> n in values && values[n] == SectorValue(hs, quotes, n)
    ensures SumValues(names, values) == SumSectorValues(names, hs, quotes)
  {
    if names != [] {
      SumValuesIsSectorSum(names[..|names| - 1], values, hs, quotes);
    }
  }

  /** A sector not yet seen has no value so far. */
  lemma {:induction false} SectorValueOfUnseen(hs: seq<Holding>, quotes: map<string, StockData>, sector: string)
    requires sector !in SectorsOf(hs, quotes)
    ensures SectorValue(hs, quotes, sector) == 0.0
  {
    if hs != [] {
      SectorValueOfUnseen(hs[..|hs| - 1], quotes, sector);
    }
  }

  /** Adding one holding adds its value once to the sum over distinct sectors. */
  lemma {:induction false} SumSectorValuesStep(names: seq<string>, hs: seq<Holding>, h: Holding,
                                               quotes: map<string, StockData>)
    requires forall i, j :: 0 <= i < j < |names| ==> names[i] != names[j]
    ensures SumSectorValues(names, hs + [h], quotes)
            == SumSectorValues(names, hs, quotes)
               + (if Included(h, quotes) && quotes[h.symbol].sector in names then MarketValue(h) else 0.0)
  {
    assert (hs + [h])[..|hs|] == hs;
    if names != [] {
      var init := names[..|names| - 1];
      assert names == init + [names[|names| - 1]];
      SumSectorValuesStep(init, hs, h, quotes);
    }
  }

  /** The sector values add up to the value of all included holdings. */
  lemma {:induction false} SumOfSectorValues(hs: seq<Holding>, quotes: map<string, StockData>)
    ensures SumSectorValues(SectorsOf(hs, quotes), hs, quotes) == IncludedValue(hs, quotes)
  {
    if hs != [] {
      var init, h := hs[..|hs| - 1], hs[|hs| - 1];
      assert hs == init + [h];
      var names := SectorsOf(init, quotes);
      SumOfSectorValues(init, quotes);
      SumSectorValuesStep(names, init, h, quotes);
      if Included(h, quotes) && quotes[h.symbol].sector !in names {
        var s := quotes[h.symbol].sector;
        SectorValueOfUnseen(init, quotes, s);
        assert (names + [s])[..|names|] == names;
      }
    }
  }

  /** Every sector of an included holding is listed. */
  lemma {:induction false} SectorsOfListsEverySector(hs: seq<Holding>, quotes: map<string, StockData>, i: nat)
    requires i < |hs| && Included(hs[i], quotes)
    ensures quotes[hs[i].symbol].sector in SectorsOf(hs, quotes)
  {
    var init := hs[..|hs| - 1];
    if i < |hs| - 1 {
      assert init[i] == hs[i];
      SectorsOfListsEverySector(init, quotes, i);
    }
  }

  /** Every listed sector is the sector of an included holding. */
  lemma {:induction false} SectorsOfListsOnlyHeldSectors(hs: seq<Holding>, quotes: map<string, StockData>, n: string)
    requires n in SectorsOf(hs, quotes)
    ensures exists i :: 0 <= i < |hs| && Included(hs[i], quotes) && quotes[hs[i].symbol].sector == n
  {
    var init, h := hs[..|hs| - 1], hs[|hs| - 1];
    if n in SectorsOf(init, quotes) {
      SectorsOfListsOnlyHeldSectors(init, quotes, n);
      var i :| 0 <= i < |init| && Included(init[i], quotes) && quotes[init[i].symbol].sector == n;
      assert hs[i] == init[i];
    } else {
      assert hs[|hs| - 1] == h;
    }
  }

  lemma {:induction false} SumPercentagesScales(es: seq<SectorEntry>, total: real)
    requires total > 0.0
    requires forall k :: 0 <= k < |es| ==> es[k].percentage == Percentage(es[k].value, total)
    ensures SumPercentages(es) == SumEntryValues(es) / total * 100.0
  {
    if es != [] {
      var init := es[..|es| - 1];
      SumPercentagesScales(init, total);
      var v, a := es[|es| - 1].value, SumEntryValues(init);
      assert a / total * 100.0 + v / total * 100.0 == (a + v) / total * 100.0;
    }
  }

  lemma {:induction false} SumEntryValuesIsSectorSum(es: seq<SectorEntry>, hs: seq<Holding>, quotes: map<string, StockData>)
    requires |es| == |SectorsOf(hs, quotes)|
    requires forall k :: 0 <= k < |es| ==>
               es[k].name == SectorsOf(hs, quotes)[k] && es[k].value == SectorValue(hs, quotes, es[k].name)
    ensures SumEntryValues(es) == IncludedValue(hs, quotes)
  {
    var names := SectorsOf(hs, quotes);
    SumOfSectorValues(hs, quotes);
    EntryValuesPrefix(es, names, hs, quotes, |es|);
    assert es[..|es|] == es && names[..|es|] == names;
  }

  lemma {:induction false} EntryValuesPrefix(es: seq<SectorEntry>, names: seq<string>, hs: seq<Holding>,
                                             quotes: map<string, StockData>, n: nat)
    requires n <= |es| == |names|
    requires forall k :: 0 <= k < |es| ==> es[k].name == names[k] && es[k].value == SectorValue(hs, quotes, names[k])
    ensures SumEntryValues(es[..n]) == SumSectorValues(names[..n], hs, quotes)
  {
    if n > 0 {
      EntryValuesPrefix(es, names, hs, quotes, n - 1);
      assert es[..n][..n - 1] == es[..n - 1];
      assert names[..n][..n - 1] == names[..n - 1];
    }
  }

  lemma WholeIsHundredPercent(total: real)
    requires total > 0.0
    ensures total / total * 100.0 == 100.0
  {
  }

  /**
   * The exposure is a partition of the market value of the holdings that
   * have a quote record: the values add up to that total and, when it is
   * positive, the (unrounded) percentages add up to 100.
   */
  lemma ExposureAddsUp(es: seq<SectorEntry>, hs: seq<Holding>, quotes: map<string, StockData>)
    requires |es| == |SectorsOf(hs, quotes)|
    requires forall k :: 0 <= k < |es| ==>
               es[k].name == SectorsOf(hs, quotes)[k]
               && es[k].value == SectorValue(hs, quotes, es[k].name)
               && es[k].percentage == Percentage(es[k].value, IncludedValue(hs, quotes))
    ensures SumEntryValues(es) == IncludedValue(hs, quotes)
    ensures IncludedValue(hs, quotes) > 0.0 ==> SumPercentages(es) == 100.0
  {
    var total := IncludedValue(hs, quotes);
    SumEntryValuesIsSectorSum(es, hs, quotes);
    if total > 0.0 {
      SumPercentagesScales(es, total);
      WholeIsHundredPercent(total);
    }
  }
}
