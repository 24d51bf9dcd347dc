/**
 * The yearly performance tracker: per year an initial basis, capital
 * injections and dated net-value records; the summary and the records table
 * of the selected year, the annual and cumulative profit series over all
 * years, the net value of the entry form, and the updates to records,
 * injections and the list of asset and liability items.
 */
module Performance {
  import opened Basics
  import opened Sorting
  import opened Text

  datatype Injection = Injection(date: Date, amount: real)

  datatype Record = Record(date: Date, netValue: real)

  datatype YearData = YearData(basis: real, capitalInjections: seq<Injection>, records: seq<Record>)

  /** The names of the asset and of the liability items of the entry form. */
  datatype AssetConfig = AssetConfig(assets: seq<string>, liabilities: seq<string>)

  /** The tracker's stored data: the years by number, and the item names. */
  datatype Db = Db(years: map<nat, YearData>, assetConfig: AssetConfig)

  /** The sum of the amounts of `injs`. */
  function SumInjections(injs: seq<Injection>): real {
    if injs == [] then 0.0 else SumInjections(injs[..|injs| - 1]) + injs[|injs| - 1].amount
  }

  /** The basis plus every capital injection of the year. */
  function TotalBasis(y: YearData): real {
    y.basis + SumInjections(y.capitalInjections)
  }

  /** A change relative to `base` in percent, 0 unless `base` is positive. */
  function PercentOf(change: real, base: real): real {
    if base > 0.0 then change / base * 100.0 else 0.0
  }

  // ---------------------------------------------------------------------
  // Summary of the selected year
  // ---------------------------------------------------------------------

  datatype Summary = Summary(basis: real, currentValue: real, pnl: real, performance: real)

  /**
   * The selected year's total basis, its latest net value (the total basis
   * while there is no record), the profit since the basis and that profit in
   * percent of the basis.
   */
  function GetSummary(db: Db, selectedYear: nat): (s: Summary)
    ensures selectedYear !in db.years ==> s == Summary(0.0, 0.0, 0.0, 0.0)
    ensures selectedYear in db.years ==>
              var y := db.years[selectedYear];
              && s.basis == TotalBasis(y)
              && (y.records == [] ==> s.currentValue == s.basis && s.pnl == 0.0)
              && (y.records != [] ==> s.currentValue == y.records[|y.records| - 1].netValue
                                      && s.pnl == s.currentValue - s.basis)
              && (s.basis <= 0.0 ==> s.performance == 0.0)
              && (s.basis > 0.0 ==> s.performance * s.basis == s.pnl * 100.0)
  {
    if selectedYear !in db.years then Summary(0.0, 0.0, 0.0, 0.0)
    else
      var y := db.years[selectedYear];
      var totalBasis := TotalBasis(y);
      var currentValue := if y.records != [] then y.records[|y.records| - 1].netValue else totalBasis;
      var pnl := if y.records != [] then currentValue - totalBasis else 0.0;
      Summary(totalBasis, currentValue, pnl, PercentOf(pnl, totalBasis))
  }

  // ---------------------------------------------------------------------
  // Annual and cumulative profit over the years
  // ---------------------------------------------------------------------

  /** The value at the end of the year: its last record, or the total basis. */
  function EndOfYearValue(y: YearData): real {
    if y.records != [] then y.records[|y.records| - 1].netValue else TotalBasis(y)
  }

  function AnnualPnl(y: YearData): real {
    EndOfYearValue(y) - TotalBasis(y)
  }

  /** The overall chart's bar for a year is the profit its summary reports. */
  lemma AnnualPnlIsSummaryPnl(db: Db, year: nat)
    requires year in db.years
    ensures AnnualPnl(db.years[year]) == GetSummary(db, year).pnl
    ensures db.years[year].records == [] ==> AnnualPnl(db.years[year]) == 0.0
  {
  }

  lemma {:induction false} MinBelow(s: set<nat>, k: nat)
    requires k in s
    ensures exists m :: m in s && forall x :: x in s ==> m <= x
    decreases k
  {
    if exists j :: j in s && j < k {
      var j :| j in s && j < k;
      MinBelow(s, j);
    } else {
      assert forall x :: x in s ==> k <= x;
    }
  }

  /** The smallest of a non-empty set of years. */
  function MinYear(s: set<nat>): (m: nat)
    requires s != {}
    ensures m in s && forall x :: x in s ==> m <= x
  {
    var k :| k in s;
    MinBelow(s, k);
    var m :| m in s && forall x :: x in s ==> m <= x;
    m
  }

  /** `Object.keys(years).sort()`: the years in increasing order (four-digit keys sort as numbers). */
  function SortedYears(s: set<nat>): (r: seq<nat>)
    ensures forall i, j :: 0 <= i < j < |r| ==> r[i] < r[j]
    ensures forall y :: y in r <==> y in s
    decreases |s|
  {
    if s == {} then []
    else
      var m := MinYear(s);
      var rest := SortedYears(s - {m});
      assert forall y :: y in rest ==> m < y;
      [m] + rest
  }

  /** A year's profit, 0 for a year without data (the chart skips it). */
  function AnnualOf(years: map<nat, YearData>, y: nat): real {
    if y in years then AnnualPnl(years[y]) else 0.0
  }

  /** The sum of the annual profits of the years `ys`. */
  function SumAnnual(years: map<nat, YearData>, ys: seq<nat>): real {
    if ys == [] then 0.0 else SumAnnual(years, ys[..|ys| - 1]) + AnnualOf(years, ys[|ys| - 1])
  }

  /** The overall chart's series: year labels, annual profit and running cumulative profit. */
  method OverallSeries(years: map<nat, YearData>) returns (labels: seq<nat>, annual: seq<real>, cumulative: seq<real>)
    ensures labels == SortedYears(years.Keys)
    ensures |annual| == |labels| && |cumulative| == |labels|
    ensures forall k :: 0 <= k < |labels| ==> annual[k] == AnnualOf(years, labels[k])
    ensures forall k :: 0 <= k < |labels| ==> cumulative[k] == SumAnnual(years, labels[..k + 1])
  {
    labels := SortedYears(years.Keys);
    annual, cumulative := YearSeries(years, labels);
  }

  /** The loop over the sorted years that accumulates the running profit. */
  method YearSeries(years: map<nat, YearData>, labels: seq<nat>) returns (annual: seq<real>, cumulative: seq<real>)
    ensures |annual| == |labels| && |cumulative| == |labels|
    ensures forall k :: 0 <= k < |labels| ==> annual[k] == AnnualOf(years, labels[k])
    ensures forall k :: 0 <= k < |labels| ==> cumulative[k] == SumAnnual(years, labels[..k + 1])
  {
    annual, cumulative := [], [];
    var runningCumulativePnl := 0.0;
    for i := 0 to |labels|
      invariant |annual| == i && |cumulative| == i
      invariant forall k :: 0 <= k < i ==> annual[k] == AnnualOf(years, labels[k])
      invariant forall k :: 0 <= k < i ==> cumulative[k] == SumAnnual(years, labels[..k + 1])
      invariant runningCumulativePnl == SumAnnual(years, labels[..i])
    {
      var annualPnl := AnnualOf(years, labels[i]);
      assert labels[..i + 1][..i] == labels[..i];
      assert SumAnnual(years, labels[..i + 1]) == SumAnnual(years, labels[..i]) + annualPnl;
      runningCumulativePnl := runningCumulativePnl + annualPnl;
      annual := annual + [annualPnl];
      cumulative := cumulative + [runningCumulativePnl];
    }
  }

  /**
   * The cumulative line starts at the first year's profit and each point
   * adds that year's profit to the previous one; a year without records
   * adds nothing.
   */
  lemma CumulativeSteps(years: map<nat, YearData>, labels: seq<nat>, annual: seq<real>, cumulative: seq<real>)
    requires |annual| == |labels| && |cumulative| == |labels|
    requires forall k :: 0 <= k < |labels| ==> annual[k] == AnnualOf(years, labels[k])
    requires forall k :: 0 <= k < |labels| ==> cumulative[k] == SumAnnual(years, labels[..k + 1])
    ensures |labels| > 0 ==> cumulative[0] == annual[0]
    ensures forall k :: 0 < k < |labels| ==> cumulative[k] == cumulative[k - 1] + annual[k]
    ensures forall k :: 0 < k < |labels| && labels[k] in years && years[labels[k]].records == [] ==>
              cumulative[k] == cumulative[k - 1]
  {
    if |labels| > 0 {
      var first := labels[..1];
      assert first[..0] == [] && first[0] == labels[0];
      assert SumAnnual(years, first) == SumAnnual(years, []) + AnnualOf(years, labels[0]);
    }
    forall k | 0 < k < |labels| ensures cumulative[k] == cumulative[k - 1] + annual[k] {
      assert labels[..k + 1][..k] == labels[..k];
    }
  }

  // ---------------------------------------------------------------------
  // The records table of the selected year
  // ---------------------------------------------------------------------

  /** The sum of the injections dated in `(lo, hi]`. */
  function InjectionsBetween(injs: seq<Injection>, lo: int, hi: int): real {
    if injs == [] then 0.0
    else
      var inj := injs[|injs| - 1];
      InjectionsBetween(injs[..|injs| - 1], lo, hi) + (if lo < inj.date <= hi then inj.amount else 0.0)
  }

  datatype TableRow = TableRow(date: Date, netValue: real, weeklyChange: real, cumulativePerf: real,
                               weeklyPerfChange: real)

  /** The exclusive lower end of the injection window of row `i`; `firstLo` for the first row. */
  function WindowStart(y: YearData, firstLo: int, i: nat): int
    requires i < |y.records|
  {
    if i > 0 then y.records[i - 1].date else firstLo
  }

  /** The value the record is compared with: the previous record's, or the basis. */
  function PreviousValue(y: YearData, i: nat): real
    requires i < |y.records|
  {
    if i > 0 then y.records[i - 1].netValue else y.basis
  }

  /** The previous value plus the injections since the previous record. */
  function AdjustedPrevValue(y: YearData, firstLo: int, i: nat): real
    requires i < |y.records|
  {
    PreviousValue(y, i) + InjectionsBetween(y.capitalInjections, WindowStart(y, firstLo, i), y.records[i].date)
  }

  function RowAt(y: YearData, firstLo: int, i: nat): TableRow
    requires i < |y.records|
  {
    var r := y.records[i];
    var adjusted := AdjustedPrevValue(y, firstLo, i);
    var weeklyChange := r.netValue - adjusted;
    TableRow(r.date, r.netValue, weeklyChange, PercentOf(r.netValue - TotalBasis(y), TotalBasis(y)),
             PercentOf(weeklyChange, adjusted))
  }

  /** One row per record, in record order. */
  function TableWith(y: YearData, firstLo: int): (rows: seq<TableRow>)
    ensures |rows| == |y.records|
    ensures forall i :: 0 <= i < |rows| ==> rows[i] == RowAt(y, firstLo, i)
  {
    seq(|y.records|, i requires 0 <= i < |y.records| => RowAt(y, firstLo, i))
  }

  /**
   * `getRecordsTableData` as written: the first row's window opens after
   * midnight of January 1 of the selected year, so an injection dated
   * January 1 falls in no row's window.
   */
  function GetRecordsTableDataAsWritten(db: Db, selectedYear: nat): (rows: seq<TableRow>)
    ensures selectedYear !in db.years ==> rows == []
    ensures selectedYear in db.years ==> rows == TableWith(db.years[selectedYear], NewYearsDay(selectedYear))
  {
    if selectedYear !in db.years then [] else TableWith(db.years[selectedYear], NewYearsDay(selectedYear))
  }

  /** The records table, with January 1 inside the first row's window. */
  function GetRecordsTableData(db: Db, selectedYear: nat): (rows: seq<TableRow>)
    ensures selectedYear !in db.years ==> rows == []
    ensures selectedYear in db.years ==> rows == TableWith(db.years[selectedYear], NewYearsDay(selectedYear) - 1)
  {
    if selectedYear !in db.years then [] else TableWith(db.years[selectedYear], NewYearsDay(selectedYear) - 1)
  }

  /** The table's rows follow the records: same dates and values, and the percentage guards. */
  lemma TableRowsFollowRecords(db: Db, selectedYear: nat)
    requires selectedYear in db.years
    ensures var y := db.years[selectedYear];
            var rows := GetRecordsTableData(db, selectedYear);
            |rows| == |y.records|
            && (forall i :: 0 <= i < |rows| ==> rows[i].date == y.records[i].date && rows[i].netValue == y.records[i].netValue)
            && (forall i :: 0 <= i < |rows| && AdjustedPrevValue(y, NewYearsDay(selectedYear) - 1, i) <= 0.0 ==>
                  rows[i].weeklyPerfChange == 0.0)
            && (|rows| > 0 ==>
                  rows[0].weeklyChange == y.records[0].netValue - y.basis
                    - InjectionsBetween(y.capitalInjections, NewYearsDay(selectedYear) - 1, y.records[0].date))
  {
  }

  function SumWeekly(rows: seq<TableRow>): real {
    if rows == [] then 0.0 else SumWeekly(rows[..|rows| - 1]) + rows[|rows| - 1].weeklyChange
  }

  /** Windows `(a, b]` and `(b, c]` make up `(a, c]`. */
  lemma {:induction false} InjectionsSplit(injs: seq<Injection>, a: int, b: int, c: int)
    requires a <= b <= c
    ensures InjectionsBetween(injs, a, c) == InjectionsBetween(injs, a, b) + InjectionsBetween(injs, b, c)
  {
    if injs != [] {
      InjectionsSplit(injs[..|injs| - 1], a, b, c);
    }
  }

  /** Records in strictly increasing date order (as the tracker keeps them). */
  predicate DatesIncreasing(records: seq<Record>) {
    forall i, j :: 0 <= i < j < |records| ==> records[i].date < records[j].date
  }

  lemma {:induction false} WeeklyTelescopes(y: YearData, firstLo: int, n: nat)
    requires DatesIncreasing(y.records) && 0 < n <= |y.records| && firstLo <= y.records[0].date
    ensures SumWeekly(TableWith(y, firstLo)[..n])
            == y.records[n - 1].netValue - y.basis - InjectionsBetween(y.capitalInjections, firstLo, y.records[n - 1].date)
  {
    var rows := TableWith(y, firstLo);
    assert rows[..n][..n - 1] == rows[..n - 1];
    if n > 1 {
      WeeklyTelescopes(y, firstLo, n - 1);
      InjectionsSplit(y.capitalInjections, firstLo, y.records[n - 2].date, y.records[n - 1].date);
    }
  }

  /**
   * The weekly changes add up to the year's profit: for date-ordered records
   * of the year, and injections dated between January 1 and the last record,
   * their sum is the summary's profit.
   */
  lemma WeeklyChangesAddUpToPnl(db: Db, selectedYear: nat)
    requires selectedYear in db.years
    requires var y := db.years[selectedYear];
             && y.records != [] && DatesIncreasing(y.records)
             && NewYearsDay(selectedYear) <= y.records[0].date
             && (forall k :: 0 <= k < |y.capitalInjections| ==>
                   NewYearsDay(selectedYear) <= y.capitalInjections[k].date <= y.records[|y.records| - 1].date)
    ensures SumWeekly(GetRecordsTableData(db, selectedYear)) == GetSummary(db, selectedYear).pnl
  {
    var y := db.years[selectedYear];
    var lo := NewYearsDay(selectedYear) - 1;
    var rows := TableWith(y, lo);
    WeeklyTelescopes(y, lo, |rows|);
    assert rows[..|rows|] == rows;
    AllInjectionsInWindow(y.capitalInjections, lo, y.records[|y.records| - 1].date);
  }

  lemma {:induction false} AllInjectionsInWindow(injs: seq<Injection>, lo: int, hi: int)
    requires forall k :: 0 <= k < |injs| ==> lo < injs[k].date <= hi
    ensures InjectionsBetween(injs, lo, hi) == SumInjections(injs)
  {
    if injs != [] {
      AllInjectionsInWindow(injs[..|injs| - 1], lo, hi);
    }
  }

  /**
   * As written, an injection on January 1 is counted in the basis but in
   * no row, so the weekly changes no longer add up to the profit.
   */
  lemma JanuaryFirstInjectionIsMissed()
    ensures var db := Db(map[2025 := YearData(100.0, [Injection(20250101, 50.0)], [Record(20250110, 150.0)])],
                         AssetConfig([], []));
            && GetSummary(db, 2025).pnl == 0.0
            && SumWeekly(GetRecordsTableDataAsWritten(db, 2025)) == 50.0
            && SumWeekly(GetRecordsTableData(db, 2025)) == 0.0
  {
    var db := Db(map[2025 := YearData(100.0, [Injection(20250101, 50.0)], [Record(20250110, 150.0)])],
                 AssetConfig([], []));
    var y := db.years[2025];
    assert SumInjections(y.capitalInjections) == 50.0;
    assert InjectionsBetween(y.capitalInjections, 20250101, 20250110) == 0.0;
    assert InjectionsBetween(y.capitalInjections, 20250100, 20250110) == 50.0;
    var asWritten := GetRecordsTableDataAsWritten(db, 2025);
    var corrected := GetRecordsTableData(db, 2025);
    assert asWritten == [RowAt(y, 20250101, 0)];
    assert corrected == [RowAt(y, 20250100, 0)];
    assert asWritten[..0] == [] && corrected[..0] == [];
  }

  // ---------------------------------------------------------------------
  // The entry form's net value
  // ---------------------------------------------------------------------

  /** The input for an item, 0 when it is left empty. */
  function InputOf(inputs: map<string, real>, name: string): real {
    if name in inputs then inputs[name] else 0.0
  }

  /** The sum of the inputs of the items `names`. */
  function SumInputs(names: seq<string>, inputs: map<string, real>): real {
    if names == [] then 0.0 else SumInputs(names[..|names| - 1], inputs) + InputOf(inputs, names[|names| - 1])
  }

  /** The assets minus the liabilities entered in the form. */
  method CalculateCurrentEntryNetValue(config: AssetConfig, assetInputs: map<string, real>,
                                       liabilityInputs: map<string, real>) returns (netValue: real)
    ensures netValue == SumInputs(config.assets, assetInputs) - SumInputs(config.liabilities, liabilityInputs)
  {
    netValue := 0.0;
    for i := 0 to |config.assets|
      invariant netValue == SumInputs(config.assets[..i], assetInputs)
    {
      assert config.assets[..i + 1][..i] == config.assets[..i];
      netValue := netValue + InputOf(assetInputs, config.assets[i]);
    }
    assert config.assets[..|config.assets|] == config.assets;
    for i := 0 to |config.liabilities|
      invariant netValue == SumInputs(config.assets, assetInputs) - SumInputs(config.liabilities[..i], liabilityInputs)
    {
      assert config.liabilities[..i + 1][..i] == config.liabilities[..i];
      netValue := netValue - InputOf(liabilityInputs, config.liabilities[i]);
    }
    assert config.liabilities[..|config.liabilities|] == config.liabilities;
  }

  /** Raising one input of a listed item moves the sum by that much per listing. */
  lemma {:induction false} SumInputsMonotone(names: seq<string>, inputs: map<string, real>, name: string, v: real)
    requires v >= InputOf(inputs, name)
    ensures SumInputs(names, inputs[name := v]) >= SumInputs(names, inputs)
  {
    if names != [] {
      SumInputsMonotone(names[..|names| - 1], inputs, name, v);
    }
  }

  /** More in an asset never lowers the net value. */
  lemma NetValueMonotoneInAssets(config: AssetConfig, assetInputs: map<string, real>, liabilityInputs: map<string, real>,
                                 name: string, v: real)
    requires v >= InputOf(assetInputs, name)
    ensures SumInputs(config.assets, assetInputs[name := v]) - SumInputs(config.liabilities, liabilityInputs)
            >= SumInputs(config.assets, assetInputs) - SumInputs(config.liabilities, liabilityInputs)
  {
    SumInputsMonotone(config.assets, assetInputs, name, v);
  }

  /** More in a liability never raises the net value. */
  lemma NetValueMonotoneInLiabilities(config: AssetConfig, assetInputs: map<string, real>,
                                      liabilityInputs: map<string, real>, name: string, v: real)
    requires v >= InputOf(liabilityInputs, name)
    ensures SumInputs(config.assets, assetInputs) - SumInputs(config.liabilities, liabilityInputs[name := v])
            <= SumInputs(config.assets, assetInputs) - SumInputs(config.liabilities, liabilityInputs)
  {
    SumInputsMonotone(config.liabilities, liabilityInputs, name, v);
  }

  // ---------------------------------------------------------------------
  // Updates
  // ---------------------------------------------------------------------

  /** How a user action ends: refused with a message, abandoned, or saved. */
  datatype Outcome = NoDate | WrongYear | InvalidAmount | BadDateFormat | DuplicateName | Cancelled | Saved(db: Db)

  /** The index of the first record dated `date`, if any. */
  function FindDate(records: seq<Record>, date: Date): (r: Option<nat>)
    ensures r.Some? ==> r.value < |records| && records[r.value].date == date
                        && forall j :: 0 <= j < r.value ==> records[j].date != date
    ensures r.None? ==> forall j :: 0 <= j < |records| ==> records[j].date != date
  {
    if records == [] then None
    else if records[0].date == date then Some(0)
    else match FindDate(records[1..], date)
      case None => None
      case Some(k) => Some(k + 1)
  }

  /** Overwrite the value of the first record on `date`, or append a new record. */
  function UpsertRecord(records: seq<Record>, date: Date, netValue: real): (r: seq<Record>)
    ensures FindDate(records, date).Some? ==>
              r == records[FindDate(records, date).value := Record(date, netValue)]
    ensures FindDate(records, date).None? ==> r == records + [Record(date, netValue)]
  {
    match FindDate(records, date)
    case Some(i) => records[i := Record(date, netValue)]
    case None => records + [Record(date, netValue)]
  }

  predicate UniqueDates(records: seq<Record>) {
    forall i, j :: 0 <= i < j < |records| ==> records[i].date != records[j].date
  }

  /**
   * After an upsert the date has exactly one record, carrying the new value;
   * every record of another date is kept in place, and dates stay unique.
   */
  lemma UpsertRecordProperties(records: seq<Record>, date: Date, netValue: real)
    requires UniqueDates(records)
    ensures var r := UpsertRecord(records, date, netValue);
            && UniqueDates(r)
            && (exists i :: 0 <= i < |r| && r[i] == Record(date, netValue))
            && (forall i :: 0 <= i < |records| && records[i].date != date ==> r[i] == records[i])
            && (forall i :: 0 <= i < |r| && r[i].date != date ==> i < |records| && r[i] == records[i])
            && |r| == |records| + (if FindDate(records, date).Some? then 0 else 1)
  {
    var r := UpsertRecord(records, date, netValue);
    match FindDate(records, date)
    case Some(k) =>
      assert r[k] == Record(date, netValue);
    case None =>
      assert r[|records|] == Record(date, netValue);
  }

  /**
   * `addRecord`: the date must be given and lie in the selected year; an
   * existing record of that date is overwritten only when the user confirms.
   */
  function AddRecord(db: Db, selectedYear: nat, recordDate: Option<Date>, netValue: real, confirmOverwrite: bool)
    : (o: Outcome)
    requires recordDate.Some? && YearOf(recordDate.value) == selectedYear ==> selectedYear in db.years
    ensures recordDate.None? <==> o == NoDate
    ensures o == WrongYear <==> recordDate.Some? && YearOf(recordDate.value) != selectedYear
    ensures o == Cancelled <==>
              recordDate.Some? && YearOf(recordDate.value) == selectedYear
              && FindDate(db.years[selectedYear].records, recordDate.value).Some? && !confirmOverwrite
    ensures o.Saved? ==>
              recordDate.Some? && selectedYear in db.years &&
              var y := db.years[selectedYear];
              o.db == Db(db.years[selectedYear := y.(records := UpsertRecord(y.records, recordDate.value, netValue))],
                         db.assetConfig)
    ensures o.NoDate? || o.WrongYear? || o.Cancelled? || o.Saved?
  {
    if recordDate.None? then NoDate
    else if YearOf(recordDate.value) != selectedYear then WrongYear
    else
      var y := db.years[selectedYear];
      if FindDate(y.records, recordDate.value).Some? && !confirmOverwrite then Cancelled
      else Saved(Db(db.years[selectedYear := y.(records := UpsertRecord(y.records, recordDate.value, netValue))],
                    db.assetConfig))
  }

  /** `deleteRecord` after the user's answer: the records of every other date, in order. */
  function DeleteRecord(db: Db, selectedYear: nat, date: Date, confirmed: bool): (o: Outcome)
    requires confirmed ==> selectedYear in db.years
    ensures !confirmed <==> o == Cancelled
    ensures o.Cancelled? || o.Saved?
    ensures o.Saved? ==>
              selectedYear in db.years &&
              var y := db.years[selectedYear];
              o.db == Db(db.years[selectedYear := y.(records := WithoutDate(y.records, date))], db.assetConfig)
  {
    if !confirmed then Cancelled
    else
      var y := db.years[selectedYear];
      Saved(Db(db.years[selectedYear := y.(records := WithoutDate(y.records, date))], db.assetConfig))
  }

  /** The records not dated `date`, in order. */
  function WithoutDate(records: seq<Record>, date: Date): (r: seq<Record>)
    ensures forall i :: 0 <= i < |r| ==> r[i].date != date
    ensures forall x :: x in records && x.date != date ==> x in r
    ensures forall x :: x in r ==> x in records
  {
    if records == [] then []
    else WithoutDate(records[..|records| - 1], date)
         + (if records[|records| - 1].date != date then [records[|records| - 1]] else [])
  }

  /**
   * Deleting filters record by record: on concatenated records it deletes from
   * each part and keeps the parts in order, so exactly the other records
   * survive, each once and in order.
   */
  lemma {:induction false} WithoutDateAppend(a: seq<Record>, b: seq<Record>, date: Date)
    ensures WithoutDate(a + b, date) == WithoutDate(a, date) + WithoutDate(b, date)
    decreases |b|
  {
    if b == [] {
      assert a + b == a;
    } else {
      WithoutDateAppend(a, b[..|b| - 1], date);
      assert (a + b)[..|a + b| - 1] == a + b[..|b| - 1];
    }
  }

  /** One record survives exactly when it is of another date. */
  lemma WithoutDateSingle(x: Record, date: Date)
    ensures WithoutDate([x], date) == if x.date != date then [x] else []
  {
    assert [x][..0] == [];
  }

  /** Deleting keeps the records in date order. */
  lemma {:induction false} WithoutDateKeepsOrder(records: seq<Record>, date: Date)
    requires DatesIncreasing(records)
    ensures DatesIncreasing(WithoutDate(records, date))
  {
    if records != [] {
      var init, x := records[..|records| - 1], records[|records| - 1];
      assert DatesIncreasing(init);
      WithoutDateKeepsOrder(init, date);
      var r0 := WithoutDate(init, date);
      if x.date != date {
        forall i | 0 <= i < |r0| ensures r0[i].date < x.date {
          assert r0[i] in init;
          var j :| 0 <= j < |init| && init[j] == r0[i];
          assert records[j] == init[j];
        }
        var r := r0 + [x];
        forall i, j | 0 <= i < j < |r| ensures r[i].date < r[j].date {
          if j < |r0| {
            assert r[i] == r0[i] && r[j] == r0[j];
          } else {
            assert r[i] == r0[i];
          }
        }
      }
    }
  }

  datatype ItemKind = Asset | Liability

  /** Whether `c`'s item names are each listed once, and never as both kinds. */
  predicate ConfigValid(c: AssetConfig) {
    (forall i, j :: 0 <= i < j < |c.assets| ==> c.assets[i] != c.assets[j])
    && (forall i, j :: 0 <= i < j < |c.liabilities| ==> c.liabilities[i] != c.liabilities[j])
    && (forall n :: n in c.assets ==> n !in c.liabilities)
  }

  /**
   * `addAssetField`: a cancelled or blank name changes nothing, a name
   * already listed as either kind is refused, any other name is appended
   * as given.
   */
  function AddAssetField(db: Db, kind: ItemKind, name: Option<string>): (o: Outcome)
    ensures o == Cancelled <==> name.None? || IsBlank(name.value)
    ensures o == DuplicateName <==>
              name.Some? && !IsBlank(name.value)
              && (name.value in db.assetConfig.assets || name.value in db.assetConfig.liabilities)
    ensures o.Cancelled? || o.DuplicateName? || o.Saved?
    ensures o.Saved? ==> o.db.years == db.years
    ensures o.Saved? && kind == Asset ==>
              o.db.assetConfig == db.assetConfig.(assets := db.assetConfig.assets + [name.value])
    ensures o.Saved? && kind == Liability ==>
              o.db.assetConfig == db.assetConfig.(liabilities := db.assetConfig.liabilities + [name.value])
  {
    if name.None? || IsBlank(name.value) then Cancelled
    else
      var c := db.assetConfig;
      if name.value in c.assets || name.value in c.liabilities then DuplicateName
      else match kind
        case Asset => Saved(Db(db.years, c.(assets := c.assets + [name.value])))
        case Liability => Saved(Db(db.years, c.(liabilities := c.liabilities + [name.value])))
  }

  /** Adding items keeps every name single and of one kind. */
  lemma AddAssetFieldKeepsConfigValid(db: Db, kind: ItemKind, name: Option<string>)
    requires ConfigValid(db.assetConfig)
    ensures AddAssetField(db, kind, name).Saved? ==> ConfigValid(AddAssetField(db, kind, name).db.assetConfig)
  {
  }

  /** What the date prompt of `addCapital` returns. */
  datatype DateAnswer = NoAnswer | Malformed | WellFormed(date: Date)

  function InjectionDate(inj: Injection): int { inj.date }

  /**
   * `addCapital`: a well-formed date and a positive amount (`None` when the
   * answer is not a number) add an injection, and the injections are sorted
   * by date.
   */
  function AddCapital(db: Db, selectedYear: nat, date: DateAnswer, amount: Option<real>): (o: Outcome)
    requires date.WellFormed? && amount.Some? && amount.value > 0.0 ==> selectedYear in db.years
    ensures date.NoAnswer? <==> o == Cancelled
    ensures date.Malformed? <==> o == BadDateFormat
    ensures o == InvalidAmount <==> date.WellFormed? && !(amount.Some? && amount.value > 0.0)
    ensures o.Cancelled? || o.BadDateFormat? || o.InvalidAmount? || o.Saved?
    ensures o.Saved? ==>
              date.WellFormed? && amount.Some? && selectedYear in db.years &&
              var y := db.years[selectedYear];
              o.db == Db(db.years[selectedYear := y.(capitalInjections :=
                           SortByKey(y.capitalInjections + [Injection(date.date, amount.value)], InjectionDate))],
                         db.assetConfig)
  {
    match date
    case NoAnswer => Cancelled
    case Malformed => BadDateFormat
    case WellFormed(d) =>
      if amount.Some? && amount.value > 0.0 then
        var y := db.years[selectedYear];
        Saved(Db(db.years[selectedYear := y.(capitalInjections :=
                   SortByKey(y.capitalInjections + [Injection(d, amount.value)], InjectionDate))],
                 db.assetConfig))
      else InvalidAmount
  }

  /**
   * An accepted injection keeps the year's injections in date order, adds
   * exactly the new one, and is counted in the total basis.
   */
  lemma AddCapitalProperties(db: Db, selectedYear: nat, date: DateAnswer, amount: Option<real>)
    requires date.WellFormed? && amount.Some? && amount.value > 0.0 ==> selectedYear in db.years
    requires AddCapital(db, selectedYear, date, amount).Saved?
    ensures var injs := AddCapital(db, selectedYear, date, amount).db.years[selectedYear].capitalInjections;
            && SortedBy(injs, InjectionDate)
            && multiset(injs) == multiset(db.years[selectedYear].capitalInjections) + multiset{Injection(date.date, amount.value)}
            && SumInjections(injs) == SumInjections(db.years[selectedYear].capitalInjections) + amount.value
  {
    var before := db.years[selectedYear].capitalInjections;
    var added := before + [Injection(date.date, amount.value)];
    SortByKeySortsAndPermutes(added, InjectionDate);
    SumOfPermutation(SortByKey(added, InjectionDate), added);
    assert added[..|added| - 1] == before;
  }

  /** Sums do not depend on the order of the injections. */
  lemma {:induction false} SumOfPermutation(a: seq<Injection>, b: seq<Injection>)
    requires multiset(a) == multiset(b)
    ensures SumInjections(a) == SumInjections(b)
    decreases |a|
  {
    if a != [] {
      var x := a[|a| - 1];
      var a0 := a[..|a| - 1];
      assert a == a0 + [x];
      assert x in multiset(b);
      var k :| 0 <= k < |b| && b[k] == x;
      var b0 := b[..k] + b[k + 1..];
      assert b == b[..k] + [x] + b[k + 1..];
      assert multiset(b) == multiset(b[..k]) + multiset([x]) + multiset(b[k + 1..]);
      assert multiset(b0) == multiset(b[..k]) + multiset(b[k + 1..]);
      assert multiset(a) == multiset(a0) + multiset([x]);
      var A, B := multiset(a0), multiset(b0);
      forall e ensures A[e] == B[e] {
        assert (A + multiset{x})[e] == (B + multiset{x})[e];
      }
      assert A == B;
      SumOfPermutation(a0, b0);
      SumRemoveAt(b, k);
    } else {
      assert |b| == 0;
    }
  }

  lemma {:induction false} SumRemoveAt(b: seq<Injection>, k: nat)
    requires k < |b|
    ensures SumInjections(b) == SumInjections(b[..k] + b[k + 1..]) + b[k].amount
  {
    if k < |b| - 1 {
      var init := b[..|b| - 1];
      SumRemoveAt(init, k);
      assert init[..k] + init[k + 1..] == (b[..k] + b[k + 1..])[..|b| - 2];
      assert init[k] == b[k];
    } else {
      assert b[..k] + b[k + 1..] == b[..|b| - 1];
    }
  }
}
